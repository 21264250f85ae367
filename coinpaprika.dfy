/**
 * The CoinPaprika extractor (app/ingestion/extractors/coinpaprika.py): one request to
 * `/tickers?quotes=USD`, whose body must be a list, filtered by the checkpoint; each
 * item validated into a candidate with its CoinPaprika id and name, its numbers taken
 * from the USD quote.
 *
 * The HTTP client is a parameter: `respond(attempt)` is the response at that attempt.
 */
module CoinPaprika {
  import opened Wrappers
  import opened Json
  import opened Library
  import opened Models
  import opened Schemas
  import opened Extraction
  import Text

  const Api: string := "CoinPaprika"
  /** RATE_LIMIT_DELAY, 1.0 second. */
  const RateLimitDelay: nat := 1000

  /**
   * The message of the ExtractionException raised for a body that is not a list. It is
   * raised inside the `try`, so the generic handler wraps it once more.
   */
  const UnexpectedFormat: string := "Unexpected response format from CoinPaprika"

  /** `fetch_data`. */
  function Fetch(lib: Lib, say: Crash -> string, respond: nat -> Response, checkpoint: Option<Instant>): (r: Fetched)
  {
    var (outcome, d) := RetryFrom(Api, RateLimitDelay, respond, 0);
    match outcome
    case Raised(f) => Fetched(Err(f), d)
    case Undecodable(reason) => Fetched(Err(FetchFailure(Api, reason)), d)
    case Body(v) =>
      if !v.List? then Fetched(Err(FetchFailure(Api, UnexpectedFormat)), d)
      else Fetched(Incremental(lib, say, Api, checkpoint, v.items), d)
  }

  /** `fetch_data`: the request, the format check, then the filter. */
  method FetchData(lib: Lib, say: Crash -> string, respond: nat -> Response, checkpoint: Option<Instant>)
    returns (r: Result<seq<Value>, Failure>, delays: seq<nat>)
    ensures Fetched(r, delays) == Fetch(lib, say, respond, checkpoint)
  {
    var outcome;
    outcome, delays := RequestWithRetry(Api, RateLimitDelay, respond);
    match outcome {
      case Raised(f) => r := Err(f);
      case Undecodable(reason) => r := Err(FetchFailure(Api, reason));
      case Body(v) =>
        if !v.List? {
          r := Err(FetchFailure(Api, UnexpectedFormat));
        } else {
          r := FilterIncremental(lib, say, Api, checkpoint, v.items);
        }
    }
  }

  /** A body that is not a list fails with the message wrapped twice. */
  lemma FetchUnexpectedFormat(lib: Lib, say: Crash -> string, respond: nat -> Response, checkpoint: Option<Instant>)
    requires RetryFrom(Api, RateLimitDelay, respond, 0).0.Body?
    requires !RetryFrom(Api, RateLimitDelay, respond, 0).0.v.List?
    ensures Fetch(lib, say, respond, checkpoint).data == Err(FetchFailure(Api, UnexpectedFormat))
  {
  }

  /**
   * A fetch that succeeds returns the items of a list body from a 2xx reply, all of them
   * when there is no checkpoint; at most three sleeps are made.
   */
  lemma FetchSound(lib: Lib, say: Crash -> string, respond: nat -> Response, checkpoint: Option<Instant>)
    ensures var outcome := RetryFrom(Api, RateLimitDelay, respond, 0).0;
            var r := Fetch(lib, say, respond, checkpoint);
            |r.delays| <= MaxRetries &&
            (r.data.Ok? ==>
               outcome.Body? && outcome.v.List? &&
               (exists k :: 0 <= k < MaxRetries && respond(k).Reply? && IsSuccess(respond(k).status) &&
                            respond(k).body == Ok(outcome.v)) &&
               (checkpoint.None? ==> r.data.value == outcome.v.items))
  {
    RetrySound(Api, RateLimitDelay, respond, 0);
  }

  // ---- normalize ----

  /** The `quotes` field, which defaults to an empty dict and must be a dict. */
  function Quotes(fields: seq<(string, Value)>): (r: Option<seq<(string, Value)>>)
    ensures Get(fields, "quotes").None? ==> r == Some([])
    ensures r.Some? && Get(fields, "quotes").Some? ==> Get(fields, "quotes") == Some(Dict(r.value))
  {
    match Get(fields, "quotes")
    case None => Some([])
    case Some(Dict(q)) => Some(q)
    case Some(_) => None
  }

  /** `CoinPaprikaResponse.model_validate(item)` accepts the item. */
  predicate Validates(lib: Lib, item: Value) {
    item.Dict? &&
    RequiredStr(item.fields, "id").Some? && RequiredStr(item.fields, "name").Some? &&
    RequiredStr(item.fields, "symbol").Some? &&
    OptionalIntOk(lib, item.fields, "rank") &&
    Quotes(item.fields).Some? &&
    OptionalStr(item.fields, "last_updated").Accepted?
  }

  /** `quotes.get("USD", {})`. */
  function UsdQuote(lib: Lib, item: Value): (v: Value)
    requires Validates(lib, item)
  {
    GetOr(Quotes(item.fields).value, "USD", Dict([]))
  }

  /**
   * One iteration of `normalize`: None when validation raises, when the USD quote is not
   * a dict (`.get` on it raises), or when either record refuses its fields.
   */
  function NormalizeItem(lib: Lib, now: Instant, item: Value): (r: Option<Candidate>)
    ensures r.Some? ==> Validates(lib, item) && UsdQuote(lib, item).Dict?
    ensures r.Some? ==> r.value.source == CoinPaprika &&
                        r.value.sourceId == Some(RequiredStr(item.fields, "id").value) &&
                        r.value.name == Some(RequiredStr(item.fields, "name").value)
    ensures r.Some? ==> |r.value.symbol| <= SymbolWidth && Text.IsUpperCase(r.value.symbol)
  {
    if !Validates(lib, item) then None
    else
      var f := item.fields;
      var usd := UsdQuote(lib, item);
      if !usd.Dict? then None
      else
        var ts := StampOf(OptionalStr(f, "last_updated").value, now);
        match MakeRawRecord(lib, Str(RequiredStr(f, "symbol").value),
                            GetOr(usd.fields, "price", Null), GetOr(usd.fields, "market_cap", Null),
                            GetOr(usd.fields, "volume_24h", Null), ts)
        case None => None
        case Some(rec) =>
          MakeCandidate(Some(RequiredStr(f, "id").value), Some(RequiredStr(f, "name").value),
                        rec.symbol, rec.priceUsd, rec.marketCap, rec.volume24h, CoinPaprika, rec.timestamp)
  }

  /** The raw record a valid item with a dict quote is turned into. */
  function Record(lib: Lib, now: Instant, item: Value): (r: Option<RawRecord>)
    requires Validates(lib, item) && UsdQuote(lib, item).Dict?
  {
    var usd := UsdQuote(lib, item).fields;
    MakeRawRecord(lib, Str(RequiredStr(item.fields, "symbol").value),
                  GetOr(usd, "price", Null), GetOr(usd, "market_cap", Null),
                  GetOr(usd, "volume_24h", Null), StampOf(OptionalStr(item.fields, "last_updated").value, now))
  }

  lemma RecordOf(lib: Lib, now: Instant, item: Value)
    requires Validates(lib, item) && UsdQuote(lib, item).Dict?
    ensures var rec := Record(lib, now, item);
            NormalizeItem(lib, now, item) ==
              if rec.None? then None
              else MakeCandidate(Some(RequiredStr(item.fields, "id").value), Some(RequiredStr(item.fields, "name").value),
                                 rec.value.symbol, rec.value.priceUsd, rec.value.marketCap, rec.value.volume24h,
                                 CoinPaprika, rec.value.timestamp)
  {
  }

  /**
   * The numbers come from the USD quote through `coerce_to_float`: a missing entry or
   * text that is not a number gives None rather than refusing the item.
   */
  lemma NormalizeItemFields(lib: Lib, now: Instant, item: Value)
    requires Validates(lib, item) && UsdQuote(lib, item).Dict?
    ensures var usd := UsdQuote(lib, item).fields;
            var r := NormalizeItem(lib, now, item);
            r.Some? ==>
              r.value.symbol == Text.Upper(Text.Strip(RequiredStr(item.fields, "symbol").value)) &&
              r.value.priceUsd == CoerceToFloat(lib, GetOr(usd, "price", Null)) &&
              r.value.marketCap == CoerceToFloat(lib, GetOr(usd, "market_cap", Null)) &&
              r.value.volume24h == CoerceToFloat(lib, GetOr(usd, "volume_24h", Null))
  {
    RecordOf(lib, now, item);
  }

  /**
   * Without `last_updated` (or with an empty one) the time is `now`, and a valid item
   * with a dict quote is refused only for a symbol longer than 20 characters.
   */
  lemma NormalizeItemTimestamp(lib: Lib, now: Instant, item: Value)
    requires Validates(lib, item) && UsdQuote(lib, item).Dict?
    ensures var lu := OptionalStr(item.fields, "last_updated").value;
            var r := NormalizeItem(lib, now, item);
            lu.None? || lu.value == [] ==>
              (r.Some? <==> |Text.Upper(Text.Strip(RequiredStr(item.fields, "symbol").value))| <= SymbolWidth) &&
              (r.Some? ==> r.value.timestamp == now)
  {
    var lu := OptionalStr(item.fields, "last_updated").value;
    RecordOf(lib, now, item);
    if lu.None? || lu.value == [] {
      assert NormalizeTimestamp(lib, StampOf(lu, now)) == Some(now);
    }
  }

  /** `normalize`: the loop over the raw items. */
  method Normalize(lib: Lib, now: Instant, raw: seq<Value>) returns (normalized: seq<Candidate>)
    ensures normalized == FilterMap(item => NormalizeItem(lib, now, item), raw)
  {
    normalized := NormalizeEach(item => NormalizeItem(lib, now, item), raw);
  }

  /**
   * Every candidate is a CoinPaprika one that carries the id and name its resolver
   * needs and a clean symbol; there are no more candidates than items.
   */
  lemma NormalizedAreClean(lib: Lib, now: Instant, raw: seq<Value>)
    ensures var out := FilterMap(item => NormalizeItem(lib, now, item), raw);
            |out| <= |raw| &&
            forall c :: c in out ==> c.source == CoinPaprika && c.sourceId.Some? && c.name.Some? &&
                                     |c.symbol| <= SymbolWidth && Text.IsUpperCase(c.symbol)
  {
    var f := item => NormalizeItem(lib, now, item);
    FilterMapExactly(f, raw);
  }
}
