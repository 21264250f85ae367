/**
 * What the two API extractors share. Each of app/ingestion/extractors/coingecko.py
 * and coinpaprika.py holds its own copy of this code:
 *  - the retry loop of `_request_with_retry`, over a scripted sequence of responses
 *    (attempt number to response), with the sleeps returned as milliseconds;
 *  - the exceptions an extraction ends in;
 *  - the incremental filter on `last_updated`;
 *  - the `normalize` loop, which keeps the items that validate and drops the rest.
 */
module Extraction {
  import opened Wrappers
  import opened Json
  import opened Library
  import opened Models
  import Text

  /**
   * What one `client.get` gives. A reply carries its status and its body decoded as
   * JSON, or the decoder's message when the body is not JSON. A request error is
   * `httpx.RequestError` (connection failure, timeout), with its text.
   */
  datatype Response =
    | Reply(status: int, body: Result<Value, string>)
    | RequestError(reason: string)

  /** `raise_for_status` lets exactly the 2xx statuses through. */
  predicate IsSuccess(status: int) {
    200 <= status <= 299
  }

  const TooManyRequests: int := 429
  const MaxRetries: nat := 3

  /** The exceptions an extraction ends in; `str(e)` of either is its message. */
  datatype Failure =
    | ApiError(message: string, status: Option<int>)  // APIException
    | ExtractionError(message: string)                // ExtractionException

  /** What `_request_with_retry` returns or raises. */
  datatype Outcome =
    | Body(v: Value)
    | Undecodable(reason: string)  // `response.json()` raised; the retry loop does not catch it
    | Raised(failure: Failure)

  /** The Python errors the fetch code can run into on an unexpected payload; how Python words them is a parameter. */
  datatype Crash =
    | NoAttribute(v: Value, attribute: string)  // AttributeError: `item.get` on a non-dict, `.replace` on a non-string
    | NotIterable(v: Value)                     // TypeError from `list.extend`

  function Pow2(k: nat): nat {
    if k == 0 then 1 else 2 * Pow2(k - 1)
  }

  /** The backoff after a 429 at attempt `attempt` (0-based): `RATE_LIMIT_DELAY * 2 ** attempt`. */
  function Backoff(base: nat, attempt: nat): nat {
    base * Pow2(attempt)
  }

  predicate RateLimited(r: Response) {
    r.Reply? && r.status == TooManyRequests
  }

  /** A response after which the loop tries again: a 429, or a request error before the last attempt. */
  predicate Retryable(r: Response, attempt: nat) {
    RateLimited(r) || (r.RequestError? && attempt < MaxRetries - 1)
  }

  /** The sleep before trying again after the retryable response `r`. */
  function Pause(base: nat, r: Response, attempt: nat): nat {
    if RateLimited(r) then Backoff(base, attempt) else base
  }

  /** The APIException for a reply whose status `raise_for_status` refuses. */
  function StatusFailure(api: string, status: int): Failure {
    ApiError(api + " API error: " + Text.IntToString(status), Some(status))
  }

  /** The APIException for a request error that is not retried. */
  function RequestFailure(api: string, reason: string): Failure {
    ApiError(api + " request failed: " + reason, None)
  }

  /** How a response that is not retried ends the call. */
  function Final(api: string, r: Response): Outcome {
    match r
    case Reply(status, body) =>
      if !IsSuccess(status) then Raised(StatusFailure(api, status))
      else (match body case Ok(v) => Body(v) case Err(reason) => Undecodable(reason))
    case RequestError(reason) => Raised(RequestFailure(api, reason))
  }

  /** What the loop raises once every attempt was retryable. */
  function Exhausted(api: string): Outcome {
    Raised(ApiError("Max retries exceeded for " + api + " API", None))
  }

  /** `_request_with_retry` from attempt `attempt` on: how it ends and the sleeps it makes. */
  function RetryFrom(api: string, base: nat, respond: nat -> Response, attempt: nat): (Outcome, seq<nat>)
    decreases MaxRetries - attempt
  {
    if attempt >= MaxRetries then (Exhausted(api), [])
    else if Retryable(respond(attempt), attempt) then
      var rest := RetryFrom(api, base, respond, attempt + 1);
      (rest.0, [Pause(base, respond(attempt), attempt)] + rest.1)
    else (Final(api, respond(attempt)), [])
  }

  /** The sleeps made after the retryable responses of attempts `lo` up to `hi`. */
  function Pauses(base: nat, respond: nat -> Response, lo: nat, hi: nat): (r: seq<nat>)
    requires lo <= hi
    ensures |r| == hi - lo
    ensures forall i :: 0 <= i < hi - lo ==> r[i] == Pause(base, respond(lo + i), lo + i)
    decreases hi - lo
  {
    if lo == hi then [] else [Pause(base, respond(lo), lo)] + Pauses(base, respond, lo + 1, hi)
  }

  /**
   * The call stops at the first response that is not retryable. It ends as that
   * response says, after one sleep per earlier attempt: the backoff for a 429 and
   * the base delay for a request error.
   */
  lemma {:induction false} RetryStopsAtFirstFinal(api: string, base: nat, respond: nat -> Response, lo: nat, k: nat)
    requires lo <= k < MaxRetries
    requires forall j :: lo <= j < k ==> Retryable(respond(j), j)
    requires !Retryable(respond(k), k)
    ensures RetryFrom(api, base, respond, lo) == (Final(api, respond(k)), Pauses(base, respond, lo, k))
    decreases k - lo
  {
    if lo < k {
      RetryStopsAtFirstFinal(api, base, respond, lo + 1, k);
    }
  }

  /** When every attempt is retryable, the call raises "Max retries exceeded" after one sleep per attempt. */
  lemma {:induction false} RetryExhausted(api: string, base: nat, respond: nat -> Response, lo: nat)
    requires lo <= MaxRetries
    requires forall j :: lo <= j < MaxRetries ==> Retryable(respond(j), j)
    ensures RetryFrom(api, base, respond, lo) == (Exhausted(api), Pauses(base, respond, lo, MaxRetries))
    decreases MaxRetries - lo
  {
    if lo < MaxRetries {
      RetryExhausted(api, base, respond, lo + 1);
    }
  }

  /** Three 429s in a row: sleeps of the base delay, twice it and four times it, then "Max retries exceeded". */
  lemma ThreeRateLimits(api: string, base: nat, respond: nat -> Response)
    requires RateLimited(respond(0)) && RateLimited(respond(1)) && RateLimited(respond(2))
    ensures RetryFrom(api, base, respond, 0) == (Exhausted(api), [base, 2 * base, 4 * base])
  {
    RetryExhausted(api, base, respond, 0);
    var p := Pauses(base, respond, 0, MaxRetries);
    assert Pow2(1) == 2 && Pow2(2) == 4;
    assert p[0] == base && p[1] == 2 * base && p[2] == 4 * base;
    assert p == [base, 2 * base, 4 * base];
  }

  /** A status error other than 429 is raised at once: one attempt, no sleep. */
  lemma HttpErrorNotRetried(api: string, base: nat, respond: nat -> Response)
    requires respond(0).Reply? && respond(0).status != TooManyRequests && !IsSuccess(respond(0).status)
    ensures RetryFrom(api, base, respond, 0) ==
            (Raised(ApiError(api + " API error: " + Text.IntToString(respond(0).status), Some(respond(0).status))), [])
  {
    RetryStopsAtFirstFinal(api, base, respond, 0, 0);
  }

  /** Request errors are retried after the base delay; the third one is raised. */
  lemma RequestErrorsRetried(api: string, base: nat, respond: nat -> Response)
    requires respond(0).RequestError? && respond(1).RequestError? && respond(2).RequestError?
    ensures RetryFrom(api, base, respond, 0) ==
            (Raised(ApiError(api + " request failed: " + respond(2).reason, None)), [base, base])
  {
    RetryStopsAtFirstFinal(api, base, respond, 0, 2);
    var p := Pauses(base, respond, 0, 2);
    assert p[0] == base && p[1] == base;
    assert p == [base, base];
  }

  /** A body is returned only as the decoded body of a 2xx reply to one of the three attempts, and at most three sleeps are made. */
  lemma {:induction false} RetrySound(api: string, base: nat, respond: nat -> Response, lo: nat)
    requires lo <= MaxRetries
    ensures var r := RetryFrom(api, base, respond, lo);
            |r.1| <= MaxRetries - lo &&
            (r.0.Body? ==> exists k :: lo <= k < MaxRetries && respond(k).Reply? &&
                                       IsSuccess(respond(k).status) && respond(k).body == Ok(r.0.v))
    decreases MaxRetries - lo
  {
    if lo < MaxRetries && Retryable(respond(lo), lo) {
      RetrySound(api, base, respond, lo + 1);
    }
  }

  /** One retried attempt: it adds its pause in front of the rest of the call. */
  lemma RetryStep(api: string, base: nat, respond: nat -> Response, attempt: nat)
    requires attempt < MaxRetries && Retryable(respond(attempt), attempt)
    ensures RetryFrom(api, base, respond, attempt).0 == RetryFrom(api, base, respond, attempt + 1).0
    ensures RetryFrom(api, base, respond, attempt).1 ==
            [Pause(base, respond(attempt), attempt)] + RetryFrom(api, base, respond, attempt + 1).1
  {
  }

  lemma AppendAssociative<T>(a: seq<T>, b: seq<T>, c: seq<T>)
    ensures a + (b + c) == (a + b) + c
  {
  }

  /** `_request_with_retry`: the `for attempt in range(MAX_RETRIES)` loop. */
  method RequestWithRetry(api: string, base: nat, respond: nat -> Response) returns (outcome: Outcome, delays: seq<nat>)
    ensures (outcome, delays) == RetryFrom(api, base, respond, 0)
  {
    delays := [];
    for attempt := 0 to MaxRetries
      invariant RetryFrom(api, base, respond, 0).0 == RetryFrom(api, base, respond, attempt).0
      invariant RetryFrom(api, base, respond, 0).1 == delays + RetryFrom(api, base, respond, attempt).1
    {
      var response := respond(attempt);
      if response.Reply? && response.status == TooManyRequests {
        RetryStep(api, base, respond, attempt);
        AppendAssociative(delays, [Backoff(base, attempt)], RetryFrom(api, base, respond, attempt + 1).1);
        delays := delays + [Backoff(base, attempt)];
        continue;
      }
      if response.RequestError? && attempt < MaxRetries - 1 {
        RetryStep(api, base, respond, attempt);
        AppendAssociative(delays, [base], RetryFrom(api, base, respond, attempt + 1).1);
        delays := delays + [base];
        continue;
      }
      assert RetryFrom(api, base, respond, attempt) == (Final(api, response), []);
      assert delays + [] == delays;
      if response.RequestError? {
        outcome := Raised(RequestFailure(api, response.reason));
        return;
      }
      if !IsSuccess(response.status) {
        outcome := Raised(StatusFailure(api, response.status));
        return;
      }
      match response.body {
        case Ok(v) => outcome := Body(v);
        case Err(reason) => outcome := Undecodable(reason);
      }
      return;
    }
    assert delays + [] == delays;
    outcome := Exhausted(api);
  }

  // ---- The incremental filter on `last_updated` ----

  /**
   * Whether the filter keeps `item`: yes when `last_updated` is missing or empty, when it
   * does not parse, or when it parses to a time without an offset (comparing that with the
   * checkpoint raises a TypeError, which is caught); otherwise exactly when it is later than
   * the checkpoint. A non-dict item or a non-string `last_updated` is an AttributeError
   * that the filter does not catch.
   */
  function KeepSince(lib: Lib, checkpoint: Instant, item: Value): (r: Result<bool, Crash>)
    ensures r == Ok(false) <==>
            item.Dict? && Get(item.fields, "last_updated").Some? && Get(item.fields, "last_updated").value.Str? &&
            var s := Get(item.fields, "last_updated").value.s;
            s != [] && lib.fromIso(Text.ReplaceChar(s, 'Z', "+00:00")).IsoAware? &&
            lib.fromIso(Text.ReplaceChar(s, 'Z', "+00:00")).utc <= checkpoint
    ensures r.Err? <==> (!item.Dict? ||
                         (Get(item.fields, "last_updated").Some? && Truthy(Get(item.fields, "last_updated").value) &&
                          !Get(item.fields, "last_updated").value.Str?))
  {
    if !item.Dict? then Err(NoAttribute(item, "get"))
    else match Get(item.fields, "last_updated")
      case None => Ok(true)
      case Some(v) =>
        if !Truthy(v) then Ok(true)
        else if !v.Str? then Err(NoAttribute(v, "replace"))
        else match lib.fromIso(Text.ReplaceChar(v.s, 'Z', "+00:00"))
          case IsoInvalid => Ok(true)
          case IsoNaive(_) => Ok(true)
          case IsoAware(t) => Ok(t > checkpoint)
  }

  /** The items the filter keeps, in order, or the first crash. */
  function Since(lib: Lib, checkpoint: Instant, items: seq<Value>): (r: Result<seq<Value>, Crash>)
    decreases |items|
  {
    if items == [] then Ok([])
    else match Since(lib, checkpoint, items[..|items| - 1])
      case Err(e) => Err(e)
      case Ok(kept) =>
        match KeepSince(lib, checkpoint, items[|items| - 1])
        case Err(e) => Err(e)
        case Ok(keep) => Ok(if keep then kept + [items[|items| - 1]] else kept)
  }

  /**
   * The filter fails exactly when some item crashes; otherwise it keeps exactly the items
   * `KeepSince` keeps, no more than there were.
   */
  lemma {:induction false} SinceKeeps(lib: Lib, checkpoint: Instant, items: seq<Value>)
    ensures var r := Since(lib, checkpoint, items);
            (r.Ok? <==> forall i :: 0 <= i < |items| ==> KeepSince(lib, checkpoint, items[i]).Ok?) &&
            (r.Ok? ==> |r.value| <= |items| &&
                       forall x :: x in r.value <==> x in items && KeepSince(lib, checkpoint, x) == Ok(true))
    decreases |items|
  {
    if items != [] {
      var init := items[..|items| - 1];
      var last := items[|items| - 1];
      SinceKeeps(lib, checkpoint, init);
      assert items == init + [last];
      assert forall i :: 0 <= i < |init| ==> items[i] == init[i];
    }
  }

  /** The filter loop of `fetch_data`: appends the kept items to `filtered`, in order. */
  method FilterSince(lib: Lib, checkpoint: Instant, items: seq<Value>) returns (r: Result<seq<Value>, Crash>)
    ensures r == Since(lib, checkpoint, items)
  {
    var filtered := [];
    for i := 0 to |items|
      invariant Since(lib, checkpoint, items[..i]) == Ok(filtered)
    {
      assert items[..i + 1][..i] == items[..i];
      var keep := KeepSince(lib, checkpoint, items[i]);
      if keep.Err? {
        assert Since(lib, checkpoint, items[..i + 1]) == Err(keep.error);
        SinceFailsOnward(lib, checkpoint, items, i + 1);
        return Err(keep.error);
      }
      if keep.value {
        filtered := filtered + [items[i]];
      }
    }
    assert items[..|items|] == items;
    r := Ok(filtered);
  }

  /** Once a prefix crashes, every longer prefix crashes the same way. */
  lemma {:induction false} SinceFailsOnward(lib: Lib, checkpoint: Instant, items: seq<Value>, n: nat)
    requires n <= |items| && Since(lib, checkpoint, items[..n]).Err?
    ensures Since(lib, checkpoint, items) == Since(lib, checkpoint, items[..n])
    decreases |items| - n
  {
    if n < |items| {
      assert items[..n + 1][..n] == items[..n];
      SinceFailsOnward(lib, checkpoint, items, n + 1);
    } else {
      assert items[..n] == items;
    }
  }

  // ---- What `fetch_data` raises, and its checkpoint step ----

  /** Where a `fetch_data` ends: the items it returns or what it raises, and every sleep made. */
  datatype Fetched = Fetched(data: Result<seq<Value>, Failure>, delays: seq<nat>)

  /** The ExtractionException `fetch_data` wraps any other error in; `message` is `str(e)`. */
  function FetchFailure(api: string, message: string): Failure {
    ExtractionError("Failed to fetch " + api + " data: " + message)
  }

  /**
   * `if last_processed: ...`: without a checkpoint the items pass unchanged; with one,
   * they are filtered, and a crash of the filter becomes `FetchFailure`. `say` is how
   * Python words the error.
   */
  function Incremental(lib: Lib, say: Crash -> string, api: string, checkpoint: Option<Instant>, items: seq<Value>)
    : (r: Result<seq<Value>, Failure>)
  {
    match checkpoint
    case None => Ok(items)
    case Some(t) =>
      match Since(lib, t, items)
      case Ok(kept) => Ok(kept)
      case Err(e) => Err(FetchFailure(api, say(e)))
  }

  /**
   * Without a checkpoint nothing is dropped. With one, the step fails exactly when an
   * item crashes the filter, with an ExtractionException; otherwise it keeps the items
   * updated after the checkpoint or whose update time is unknown.
   */
  lemma IncrementalKeeps(lib: Lib, say: Crash -> string, api: string, checkpoint: Option<Instant>, items: seq<Value>)
    ensures checkpoint.None? ==> Incremental(lib, say, api, checkpoint, items) == Ok(items)
    ensures var r := Incremental(lib, say, api, checkpoint, items);
            checkpoint.Some? ==>
              (r.Ok? <==> forall i :: 0 <= i < |items| ==> KeepSince(lib, checkpoint.value, items[i]).Ok?) &&
              (r.Err? ==> r.error.ExtractionError?) &&
              (r.Ok? ==> |r.value| <= |items| &&
                         forall x :: x in r.value <==> x in items && KeepSince(lib, checkpoint.value, x) == Ok(true))
  {
    if checkpoint.Some? {
      SinceKeeps(lib, checkpoint.value, items);
    }
  }

  /** The checkpoint step of `fetch_data`. */
  method FilterIncremental(lib: Lib, say: Crash -> string, api: string, checkpoint: Option<Instant>, items: seq<Value>)
    returns (r: Result<seq<Value>, Failure>)
    ensures r == Incremental(lib, say, api, checkpoint, items)
  {
    if checkpoint.None? {
      return Ok(items);
    }
    var kept := FilterSince(lib, checkpoint.value, items);
    match kept {
      case Ok(filtered) => r := Ok(filtered);
      case Err(e) => r := Err(FetchFailure(api, say(e)));
    }
  }

  // ---- The `normalize` loop ----

  /** The results of `f` on `items`, in order, leaving out the items it refuses. */
  function FilterMap(f: Value -> Option<Candidate>, items: seq<Value>): (r: seq<Candidate>)
    decreases |items|
  {
    if items == [] then []
    else FilterMap(f, items[..|items| - 1]) +
         match f(items[|items| - 1]) case Some(c) => [c] case None => []
  }

  /**
   * A refused item is dropped without stopping the batch: there are no more results than
   * items, and the results are exactly what `f` makes of the items it accepts.
   */
  lemma {:induction false} FilterMapExactly(f: Value -> Option<Candidate>, items: seq<Value>)
    ensures |FilterMap(f, items)| <= |items|
    ensures forall c :: c in FilterMap(f, items) <==> exists i :: 0 <= i < |items| && f(items[i]) == Some(c)
    decreases |items|
  {
    if items != [] {
      var init := items[..|items| - 1];
      FilterMapExactly(f, init);
      forall c ensures c in FilterMap(f, items) <==> exists i :: 0 <= i < |items| && f(items[i]) == Some(c) {
        if exists i :: 0 <= i < |init| && f(init[i]) == Some(c) {
          var i :| 0 <= i < |init| && f(init[i]) == Some(c);
          assert items[i] == init[i];
        }
        if exists i :: 0 <= i < |items| && f(items[i]) == Some(c) {
          var i :| 0 <= i < |items| && f(items[i]) == Some(c);
          if i < |init| { assert init[i] == items[i]; }
        }
      }
    }
  }

  /** The loop of `normalize`: appends the candidate of each item that validates. */
  method NormalizeEach(f: Value -> Option<Candidate>, items: seq<Value>) returns (normalized: seq<Candidate>)
    ensures normalized == FilterMap(f, items)
  {
    normalized := [];
    for i := 0 to |items|
      invariant normalized == FilterMap(f, items[..i])
    {
      assert items[..i + 1][..i] == items[..i];
      match f(items[i]) {
        case Some(c) => normalized := normalized + [c];
        case None =>
      }
    }
    assert items[..|items|] == items;
  }
}
