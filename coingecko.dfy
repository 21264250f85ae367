/**
 * The CoinGecko extractor (app/ingestion/extractors/coingecko.py): `/coins/markets`
 * fetched page by page, at most two pages of 250, filtered by the checkpoint, and
 * each item validated into a candidate.
 *
 * The HTTP client is a parameter: `respond(page)(attempt)` is the response to the
 * request for that page at that attempt. Sleeps are returned in milliseconds.
 */
module CoinGecko {
  import opened Wrappers
  import opened Json
  import opened Library
  import opened Models
  import opened Schemas
  import opened Extraction
  import Text

  const Api: string := "CoinGecko"
  /** RATE_LIMIT_DELAY, 2.0 seconds. */
  const RateLimitDelay: nat := 2000
  const PageSize: nat := 250
  /** The loop stops after this page whatever it holds. */
  const LastPage: nat := 2

  /** `items` collected and `pause` slept before the rest of the pages. */
  function Then(items: seq<Value>, pause: seq<nat>, rest: Fetched): (r: Fetched)
    ensures r.delays == pause + rest.delays
    ensures rest.data.Err? ==> r.data == rest.data
    ensures rest.data.Ok? ==> r.data == Ok(items + rest.data.value)
  {
    match rest.data
    case Ok(more) => Fetched(Ok(items + more), pause + rest.delays)
    case Err(e) => Fetched(Err(e), pause + rest.delays)
  }

  lemma ThenNothing(rest: Fetched)
    ensures Then([], [], rest) == rest
  {
    assert [] + rest.delays == rest.delays;
    if rest.data.Ok? {
      assert [] + rest.data.value == rest.data.value;
    }
  }

  lemma ThenThen(a: seq<Value>, p: seq<nat>, b: seq<Value>, q: seq<nat>, rest: Fetched)
    ensures Then(a, p, Then(b, q, rest)) == Then(a + b, p + q, rest)
  {
    assert p + (q + rest.delays) == (p + q) + rest.delays;
    if rest.data.Ok? {
      assert a + (b + rest.data.value) == (a + b) + rest.data.value;
    }
  }

  /**
   * The `while True` loop from page `page` on. An empty or falsy body ends it; a body
   * that is not iterable, or that does not decode, is an error that becomes an
   * ExtractionException; an APIException passes through. A page is followed by another
   * only when it is page 1 and holds at least PAGE_SIZE items, after one more sleep.
   */
  function PagesFrom(say: Crash -> string, respond: nat -> nat -> Response, page: nat): (r: Fetched)
    requires 1 <= page <= LastPage
    decreases LastPage - page
  {
    var (outcome, d) := RetryFrom(Api, RateLimitDelay, respond(page), 0);
    match outcome
    case Raised(f) => Fetched(Err(f), d)
    case Undecodable(reason) => Fetched(Err(FetchFailure(Api, reason)), d)
    case Body(v) =>
      if !Truthy(v) then Fetched(Ok([]), d)
      else match Iterate(v)
        case None => Fetched(Err(FetchFailure(Api, say(NotIterable(v)))), d)
        case Some(items) =>
          if page >= LastPage || |items| < PageSize then Fetched(Ok(items), d)
          else Then(items, d + [RateLimitDelay], PagesFrom(say, respond, page + 1))
  }

  /** `fetch_data`: the pages, then the checkpoint filter. */
  function Fetch(lib: Lib, say: Crash -> string, respond: nat -> nat -> Response, checkpoint: Option<Instant>): (r: Fetched)
  {
    var p := PagesFrom(say, respond, 1);
    match p.data
    case Err(_) => p
    case Ok(all) => Fetched(Incremental(lib, say, Api, checkpoint, all), p.delays)
  }

  /** `fetch_data`: the pagination loop, then the filter. */
  method FetchData(lib: Lib, say: Crash -> string, respond: nat -> nat -> Response, checkpoint: Option<Instant>)
    returns (r: Result<seq<Value>, Failure>, delays: seq<nat>)
    ensures Fetched(r, delays) == Fetch(lib, say, respond, checkpoint)
  {
    var all: seq<Value> := [];
    delays := [];
    var page: nat := 1;
    ThenNothing(PagesFrom(say, respond, 1));
    while true
      invariant 1 <= page <= LastPage
      invariant PagesFrom(say, respond, 1) == Then(all, delays, PagesFrom(say, respond, page))
      decreases LastPage - page
    {
      ghost var before := delays;
      var outcome, d := RequestWithRetry(Api, RateLimitDelay, respond(page));
      delays := delays + d;
      match outcome {
        case Raised(f) =>
          return Err(f), delays;
        case Undecodable(reason) =>
          return Err(FetchFailure(Api, reason)), delays;
        case Body(v) =>
          if !Truthy(v) {
            assert all + [] == all;
            break;
          }
          var data := Iterate(v);
          if data.None? {
            return Err(FetchFailure(Api, say(NotIterable(v)))), delays;
          }
          var items := data.value;
          if page >= LastPage || |items| < PageSize {
            all := all + items;
            break;
          }
          ThenThen(all, before, items, d + [RateLimitDelay], PagesFrom(say, respond, page + 1));
          assert before + (d + [RateLimitDelay]) == before + d + [RateLimitDelay];
          all := all + items;
          page := page + 1;
          delays := delays + [RateLimitDelay];
      }
    }
    assert PagesFrom(say, respond, 1) == Fetched(Ok(all), delays);
    r := FilterIncremental(lib, say, Api, checkpoint, all);
  }

  /** Page 3 is never requested: the fetch depends on the responses to pages 1 and 2 only. */
  lemma FetchReadsTwoPages(lib: Lib, say: Crash -> string, respond: nat -> nat -> Response,
                           respond': nat -> nat -> Response, checkpoint: Option<Instant>)
    requires respond(1) == respond'(1) && respond(2) == respond'(2)
    ensures Fetch(lib, say, respond, checkpoint) == Fetch(lib, say, respond', checkpoint)
  {
    assert PagesFrom(say, respond, 2) == PagesFrom(say, respond', 2);
  }

  /** A short first page is all there is: no second request and no sleep between pages. */
  lemma ShortFirstPage(say: Crash -> string, respond: nat -> nat -> Response, items: seq<Value>)
    requires RetryFrom(Api, RateLimitDelay, respond(1), 0).0 == Body(List(items))
    requires 0 < |items| < PageSize
    ensures PagesFrom(say, respond, 1) == Fetched(Ok(items), RetryFrom(Api, RateLimitDelay, respond(1), 0).1)
  {
  }

  /**
   * A full first page is followed by the second after one more sleep of the base delay,
   * and the items are the two pages' items in order.
   */
  lemma FullFirstPage(say: Crash -> string, respond: nat -> nat -> Response, first: seq<Value>, second: seq<Value>)
    requires RetryFrom(Api, RateLimitDelay, respond(1), 0).0 == Body(List(first)) && |first| >= PageSize
    requires RetryFrom(Api, RateLimitDelay, respond(2), 0).0 == Body(List(second))
    ensures PagesFrom(say, respond, 1) ==
            Fetched(Ok(first + second),
                  RetryFrom(Api, RateLimitDelay, respond(1), 0).1 + [RateLimitDelay] +
                  RetryFrom(Api, RateLimitDelay, respond(2), 0).1)
  {
    var d1 := RetryFrom(Api, RateLimitDelay, respond(1), 0).1;
    var d2 := RetryFrom(Api, RateLimitDelay, respond(2), 0).1;
    if second == [] {
      assert first + [] == first;
    }
    assert (d1 + [RateLimitDelay]) + d2 == d1 + [RateLimitDelay] + d2;
  }

  /** An APIException on the first page reaches the caller unchanged; nothing is filtered. */
  lemma ApiErrorPassesThrough(lib: Lib, say: Crash -> string, respond: nat -> nat -> Response,
                              checkpoint: Option<Instant>, f: Failure)
    requires RetryFrom(Api, RateLimitDelay, respond(1), 0).0 == Raised(f)
    ensures Fetch(lib, say, respond, checkpoint).data == Err(f)
  {
  }

  /** Whatever the pages hold, at most seven sleeps are made: three per page and one between them. */
  lemma {:induction false} FetchSleepsBounded(lib: Lib, say: Crash -> string, respond: nat -> nat -> Response, checkpoint: Option<Instant>)
    ensures |Fetch(lib, say, respond, checkpoint).delays| <= 2 * MaxRetries + 1
  {
    RetrySound(Api, RateLimitDelay, respond(1), 0);
    RetrySound(Api, RateLimitDelay, respond(2), 0);
  }

  /** The fetched items are the pages' items, filtered as `Incremental` says. */
  lemma {:induction false} FetchFilters(lib: Lib, say: Crash -> string, respond: nat -> nat -> Response, checkpoint: Option<Instant>)
    ensures var p := PagesFrom(say, respond, 1);
            var r := Fetch(lib, say, respond, checkpoint).data;
            p.data.Ok? && checkpoint.Some? && r.Ok? ==>
              |r.value| <= |p.data.value| &&
              forall x :: x in r.value ==> x in p.data.value && KeepSince(lib, checkpoint.value, x) == Ok(true)
  {
    var p := PagesFrom(say, respond, 1);
    if p.data.Ok? {
      IncrementalKeeps(lib, say, Api, checkpoint, p.data.value);
    }
  }

  // ---- normalize ----

  /** A validated optional number as the value handed on to `RawCryptoRecord`. */
  function Number(x: Option<real>): (v: Value)
    ensures x.None? ==> v == Null
    ensures x.Some? ==> v == Num(x.value)
  {
    match x case Some(r) => Num(r) case None => Null
  }

  /** `CoinGeckoResponse.model_validate(item)` accepts the item. */
  predicate Validates(lib: Lib, item: Value) {
    item.Dict? &&
    RequiredStr(item.fields, "id").Some? && RequiredStr(item.fields, "symbol").Some? &&
    OptionalStr(item.fields, "name").Accepted? &&
    OptionalFloat(lib, item.fields, "current_price").Accepted? &&
    OptionalFloat(lib, item.fields, "market_cap").Accepted? &&
    OptionalFloat(lib, item.fields, "total_volume").Accepted? &&
    OptionalStr(item.fields, "last_updated").Accepted?
  }

  /**
   * One iteration of `normalize`: the candidate of a valid item, or None when any of the
   * three validations raises. The candidate carries no source id and no name.
   */
  function NormalizeItem(lib: Lib, now: Instant, item: Value): (r: Option<Candidate>)
    ensures r.Some? ==> Validates(lib, item)
    ensures r.Some? ==> r.value.source == CoinGecko && r.value.sourceId.None? && r.value.name.None?
    ensures r.Some? ==> |r.value.symbol| <= SymbolWidth && Text.IsUpperCase(r.value.symbol)
  {
    if !Validates(lib, item) then None
    else
      var f := item.fields;
      var ts := StampOf(OptionalStr(f, "last_updated").value, now);
      match MakeRawRecord(lib, Str(RequiredStr(f, "symbol").value),
                          Number(OptionalFloat(lib, f, "current_price").value),
                          Number(OptionalFloat(lib, f, "market_cap").value),
                          Number(OptionalFloat(lib, f, "total_volume").value), ts)
      case None => None
      case Some(rec) =>
        MakeCandidate(None, None, rec.symbol, rec.priceUsd, rec.marketCap, rec.volume24h, CoinGecko, rec.timestamp)
  }

  /** The raw record a valid item is turned into. */
  function Record(lib: Lib, now: Instant, item: Value): (r: Option<RawRecord>)
    requires Validates(lib, item)
  {
    var f := item.fields;
    MakeRawRecord(lib, Str(RequiredStr(f, "symbol").value),
                  Number(OptionalFloat(lib, f, "current_price").value),
                  Number(OptionalFloat(lib, f, "market_cap").value),
                  Number(OptionalFloat(lib, f, "total_volume").value),
                  StampOf(OptionalStr(f, "last_updated").value, now))
  }

  lemma RecordOf(lib: Lib, now: Instant, item: Value)
    requires Validates(lib, item)
    ensures var rec := Record(lib, now, item);
            NormalizeItem(lib, now, item) ==
              if rec.None? then None
              else MakeCandidate(None, None, rec.value.symbol, rec.value.priceUsd, rec.value.marketCap,
                                 rec.value.volume24h, CoinGecko, rec.value.timestamp)
  {
  }

  /**
   * What the candidate of a valid item holds: the stripped, upper-cased symbol and the
   * three validated numbers unchanged.
   */
  lemma NormalizeItemFields(lib: Lib, now: Instant, item: Value)
    requires Validates(lib, item)
    ensures var f := item.fields;
            var r := NormalizeItem(lib, now, item);
            r.Some? ==>
              r.value.symbol == Text.Upper(Text.Strip(RequiredStr(f, "symbol").value)) &&
              r.value.priceUsd == OptionalFloat(lib, f, "current_price").value &&
              r.value.marketCap == OptionalFloat(lib, f, "market_cap").value &&
              r.value.volume24h == OptionalFloat(lib, f, "total_volume").value
  {
    RecordOf(lib, now, item);
  }

  /**
   * The candidate's time is that of `last_updated`, or `now` when that is missing or
   * empty; then the item is refused only for a symbol longer than 20 characters.
   */
  lemma NormalizeItemTimestamp(lib: Lib, now: Instant, item: Value)
    requires Validates(lib, item)
    ensures var f := item.fields;
            var r := NormalizeItem(lib, now, item);
            var lu := OptionalStr(f, "last_updated").value;
            (r.Some? && lu.Some? && lu.value != [] ==> Some(r.value.timestamp) == FirstFormat(lib, lu.value, TimestampFormats)) &&
            (lu.None? || lu.value == [] ==>
               (r.Some? <==> |Text.Upper(Text.Strip(RequiredStr(f, "symbol").value))| <= SymbolWidth) &&
               (r.Some? ==> r.value.timestamp == now))
  {
    var f := item.fields;
    var lu := OptionalStr(f, "last_updated").value;
    var ts := StampOf(lu, now);
    RecordOf(lib, now, item);
    if lu.None? || lu.value == [] {
      assert NormalizeTimestamp(lib, ts) == Some(now);
    }
  }

  /** `normalize`: the loop over the raw items. */
  method Normalize(lib: Lib, now: Instant, raw: seq<Value>) returns (normalized: seq<Candidate>)
    ensures normalized == FilterMap(item => NormalizeItem(lib, now, item), raw)
  {
    normalized := NormalizeEach(item => NormalizeItem(lib, now, item), raw);
  }

  /**
   * An item that fails validation is dropped and the batch goes on: every candidate is
   * a CoinGecko one with a clean symbol that fits its column, and there are no more
   * candidates than items.
   */
  lemma NormalizedAreClean(lib: Lib, now: Instant, raw: seq<Value>)
    ensures var out := FilterMap(item => NormalizeItem(lib, now, item), raw);
            |out| <= |raw| &&
            forall c :: c in out ==> c.source == CoinGecko && |c.symbol| <= SymbolWidth && Text.IsUpperCase(c.symbol)
  {
    var f := item => NormalizeItem(lib, now, item);
    FilterMapExactly(f, raw);
  }
}
