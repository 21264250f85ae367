# crypto-etl in Dafny

A verified model of the core of a cryptocurrency ETL service. The service pulls
market data from three sources, normalises each item into a unified record,
resolves every record to one canonical coin, and upserts the records into a
unified price table. It books every run as an ETL job with a checkpoint. The
model covers the three sources: the CoinGecko `/coins/markets` API, the
CoinPaprika `/tickers` API and a local CSV file.

The modules follow the program's structure:

- `Wrappers`: `Option` and `Result`.
- `Text`: Python's `strip`, and `upper`, `lower` and `isalnum` on ASCII text, and
  the decimal rendering of integers.
- `Json` (with `Library`): decoded JSON values as a datatype, dict lookup with
  Python's last-key-wins semantics, and the library parameter `Lib`. `Lib`
  stands for the parts of Python the model does not reimplement: float and
  integer parsing, datetime parsing, and `str()` of a number or a container.
- `Models`: the ORM entities (`Coin`, `AssetMapping`, `RawData`,
  `UnifiedCryptoData`, `EtlJob`), the `DataSource` and `ETLStatus` enums, and
  the column widths and unique keys.
- `Schemas`: the Pydantic validators of the raw records: `normalize_symbol`,
  `coerce_to_float` and `normalize_timestamp`.
- `Normalization`: `SymbolNormalizer.normalize` over its `CANONICAL_MAP` and
  `VALID_SYMBOLS`.
- `Database` / `Store`: the tables as state, with the unique indexes the
  migrations leave. Inserts and the upsert enforce the unique and foreign-key
  constraints, the upsert also needs a unique index matching its conflict
  target, and a session holds the table snapshot that a rollback returns to.
- `Resolution`: the `AssetResolver` class, with its two in-memory caches and
  its loaded flag,
  `resolve_asset`, `resolve_by_symbol`, the slug generator and cache
  preloading.
- `Ordering`, `Fuzzy`: the sorted orders the metrics output relies on, and
  the similarity ranking used by schema-drift detection.
- `Drift`: the `DriftDetector` class, with its rename, missing-field,
  extra-field, null-quality and type-change checks and its history summary.
- `Metrics`: the `MetricsCollector` class and its Prometheus text output.
- `Extraction`: what the two API extractors share. Each holds its own copy of
  `_request_with_retry` (retry with exponential backoff and status handling),
  and both use the checkpoint filter and the `normalize` loop. `CoinGecko`,
  `CoinPaprika` and `CsvExtractor` are the three extractors, and
  `BaseExtractor.extract` is `Service.Extract`.
- `Service`: the `ETLService` class, covering checkpoint lookup, job creation,
  raw storage, resolve-and-upsert, the per-source run with its commit /
  rollback, and the run over all sources.

The outside world is passed in as parameters:

- HTTP replies are a scripted `respond(attempt)` function.
- Sleeps are returned as delays in milliseconds.
- The current time is given as instants, the CSV file as a `CsvFile`, and
  messages rendered from floats or exceptions as `say` / `describe`
  functions.

Each operation is proved against a specification function or an invariant:

- the resolver keeps its caches consistent with the tables;
- a run leaves the database consistent and books its job correctly;
- backoff delays are bounded and doubling;
- the checkpoint filter keeps exactly the newer items;
- the bulk upsert succeeds only under a conflict target a unique index matches, so as written no run stores a price;
- the metrics output lists every counter in sorted order;
- drift reports match the fields compared.

## Model

| member | source | states |
|---|---|---|
| Text.StripShape | app/ingestion/transformers/schemas.py:22-23 | `strip()` removes only whitespace, and only from the ends: the result occurs inside the input, starts and ends with a non-space, and is empty exactly when the input is all whitespace |
| Text.StripIdempotent | app/ingestion/transformers/schemas.py:22-23 | stripping twice is stripping once |
| Text.UpperProperties | app/ingestion/transformers/schemas.py:22-24 | `upper()` leaves no lower-case letter, is idempotent, and changes nothing in a string without lower-case letters |
| Text.LowerProperties | app/ingestion/normalization.py:46 | the same three facts for `lower()` |
| Text.LowerOfUpper | app/ingestion/asset_resolver.py:312 | lower-casing gives the same result whether or not the string was upper-cased first |
| Text.UpperStripCommute | app/ingestion/asset_resolver.py:87 | `s.upper().strip()` (the resolver's order) equals `s.strip().upper()` (the validator's order) |
| Text.LowerStripCommute | app/ingestion/normalization.py:46 | `s.lower().strip()` equals `s.strip().lower()` |
| Text.NatToStringRoundTrip | app/core/middleware.py:179-182 | the decimal rendering of a count reads back as that count and has no leading zero |
| Text.ReplaceChar | app/ingestion/extractors/coingecko.py:130-132 | `replace("Z", ...)` leaves a string without `Z` unchanged, and no `Z` survives a replacement that contains none |
| Ordering.StrLtIsStrictTotalOrder | app/core/middleware.py:179 | Python's string comparison, modelled as lexicographic order on characters, is irreflexive, transitive and total |
| Ordering.SortSet | app/core/middleware.py:179 | the keys that `sorted()` emits: every key once, in strictly increasing order, equal to `SortedOf` |
| Ordering.SortedUnique | app/ingestion/normalization.py:32 | a strict total order sorts a set of elements in exactly one way, so `sorted()` is determined by the set |
| Fuzzy.CloseMatch | app/ingestion/normalization.py:60 | `get_close_matches(word, possibilities, n=1, cutoff)`: the match is a possibility scoring at least the cutoff, and there is none exactly when every possibility scores below it |
| Fuzzy.CloseMatchIsBest | app/ingestion/drift.py:73-79 | the match outranks every possibility that reaches the cutoff: a higher score, or the same score and not smaller as a string |
| Json.Get | app/ingestion/extractors/csv_extractor.py:73 | `d.get(k)` returns a value stored under `k` in the dictionary |
| Json.GetKeys | app/ingestion/extractors/csv_extractor.py:73 | a key is found exactly when it is one of the dictionary's keys |
| Json.PutGet | app/ingestion/extractors/csv_extractor.py:68-69 | `d[k] = v` stores `v` under `k` and changes the value of no other key |
| Json.PutKeys | app/ingestion/extractors/csv_extractor.py:68-69 | assignment keeps key order: an existing key keeps its place and a new key goes last |
| Json.PutDistinct | app/ingestion/extractors/csv_extractor.py:68-69 | assignment keeps every key of a dictionary unique |
| Json.Iterate | app/ingestion/extractors/coingecko.py:114 | what `list.extend` takes from a value: a list's items, nothing from an empty container, a `TypeError` for a scalar |
| Models.SourceValueRoundTrip | app/db/models.py:37-42 | the stored string of a `DataSource` identifies it, and every stored string comes from exactly one source |
| Models.AllSourcesComplete | app/db/models.py:37-42 | `list(DataSource)` holds each of the three sources exactly once |
| Models.StatusValueRoundTrip | app/db/models.py:45-50 | the stored string of an `ETLStatus` identifies it, and every stored string comes from exactly one status |
| Models.MakeCandidate | app/schemas/crypto.py:121-146 | `UnifiedCryptoDataCreate(...)` refuses exactly the symbols longer than 20 characters, and keeps the symbol, source and timestamp it was given |
| Models.CoinTimestampsGiveIndexKeys | app/ingestion/service.py:162-167 | rows with distinct `(coin_id, timestamp)`, the key the service de-duplicates on, never collide on the unique index `(coin_id, source, timestamp)` |
| Models.SameIndexKey | alembic/versions/003_fix_unique_constraint.py:50-57 | defines the key of the partial unique index `ix_uq_coin_source_timestamp`: coin, source and timestamp, with a NULL coin id never colliding |
| Models.SymbolKeysUnique | alembic/versions/001_initial_schema.py:61 | defines `uq_crypto_symbol_source_timestamp`, which no later migration drops: one price row per symbol, source and timestamp |
| Models.SourceFromValue | app/db/models.py:37-42 | defines the `DataSource(value)` lookup of the three stored source strings |
| Models.StatusFromValue | app/db/models.py:45-50 | defines the `ETLStatus(value)` lookup of the three stored status strings |
| Text.StripLeft | app/ingestion/transformers/schemas.py:23 | the leading-whitespace cut of `strip()`: a suffix of the input that starts with a non-space, after only spaces |
| Text.StripRight | app/ingestion/transformers/schemas.py:23 | the trailing-whitespace cut of `strip()`: a prefix of the input that ends with a non-space, followed only by spaces |
| Text.StripBlank | app/ingestion/transformers/schemas.py:23 | `strip()` gives the empty string exactly for an all-whitespace string |
| Text.StripUnpadded | app/ingestion/transformers/schemas.py:23 | `strip()` leaves a string with no surrounding whitespace unchanged |
| Text.Upper | app/ingestion/transformers/schemas.py:23 | `upper()` maps each character on its own and keeps the length |
| Text.Lower | app/ingestion/normalization.py:46 | `lower()` maps each character on its own and keeps the length |
| Text.LowerUndoesUpper | app/ingestion/asset_resolver.py:312-315 | lower-casing an upper-cased lower-case string gives it back |
| Text.NatToString | app/core/middleware.py:181 | a count is printed as at least one decimal digit |
| Text.IntToString | app/core/middleware.py:181 | a status code is printed with a minus sign exactly when it is negative |
| Json.Keys | app/ingestion/extractors/csv_extractor.py:71-74 | a dictionary's keys, in insertion order |
| Json.GetOr | app/ingestion/extractors/coinpaprika.py:142-151 | `d.get(k, default)` is the default exactly when the key is missing, and otherwise the stored value |
| Json.GetSnoc | app/ingestion/extractors/csv_extractor.py:68-74 | a key added last is found only when no earlier entry has it |
| Json.GetAfterPut | app/ingestion/extractors/csv_extractor.py:68-69 | after `d[k] = v`, `d.get(k)` is `v` and every other key reads as before |
| Models.SourceValue | app/db/models.py:37-42 | each source has a non-empty stored string |
| Models.StatusValue | app/db/models.py:45-50 | each status has a non-empty stored string |
| Fuzzy.OutranksTotal | app/ingestion/normalization.py:60 | of any two possibilities, one ranks at least as high as the other in `get_close_matches` |
| Fuzzy.OutranksTransitive | app/ingestion/normalization.py:60 | the ranking of `get_close_matches` is transitive |
| Normalization.CanonicalTable | app/ingestion/normalization.py:14-29 | `CANONICAL_MAP` is defined exactly on its fourteen keys and maps each to a canonical ticker |
| Normalization.Canonical | app/ingestion/normalization.py:14-29 | defines `CANONICAL_MAP`: fourteen names and tickers to seven canonical tickers |
| Normalization.ValidSymbolsAreSortedValues | app/ingestion/normalization.py:32 | `VALID_SYMBOLS` is sorted and holds exactly the values of `CANONICAL_MAP` |
| Normalization.Cleaned | app/ingestion/normalization.py:46 | the cleaned input has no upper-case letter and is the stripped, lower-cased input |
| Normalization.TickerIsKey | app/ingestion/normalization.py:14-32 | every canonical ticker, lower-cased, is a key that maps back to that ticker |
| Normalization.TickerCheckIsSubsumed | app/ingestion/normalization.py:52-55 | under the model's ASCII case mapping, the second step never decides: any cleaned input it would accept has already been answered by the exact lookup |
| Normalization.Steps | app/ingestion/normalization.py:48-69 | an exact key gives its table value, and every answer is a canonical ticker |
| Normalization.Normalize | app/ingestion/normalization.py:37-69 | empty input gives None, and every answer is a member of `VALID_SYMBOLS` |
| Normalization.NormalizeOutcome | app/ingestion/normalization.py:43-69 | None exactly when the input is empty, or when the cleaned input is not a key and no key scores 0.8 against it; if the cleaned input is not a key, the answer is the table value of the closest key |
| Normalization.NormalizeTicker | app/ingestion/normalization.py:49-55 | a canonical ticker, upper- or lower-case, normalises to itself |
| Normalization.NormalizeIgnoresCase | app/ingestion/normalization.py:46-50 | the answer does not depend on the case of the input |
| Normalization.NormalizeIgnoresPadding | app/ingestion/normalization.py:46-50 | nor on surrounding whitespace, as long as the input is not all whitespace |
| Schemas.NormalizeSymbol | app/ingestion/transformers/schemas.py:18-24 | a string symbol is stripped and upper-cased; None becomes `"NONE"`; the result never has a lower-case letter |
| Schemas.NormalizeSymbolIdempotent | app/ingestion/transformers/schemas.py:18-24 | validating a cleaned symbol again changes nothing |
| Schemas.NormalizeSymbolTrimmed | app/ingestion/transformers/schemas.py:22-23 | a cleaned string symbol has no whitespace at either end |
| Schemas.CoerceToFloat | app/ingestion/transformers/schemas.py:26-35 | None, `""` and `"N/A"` give None; a number gives itself; other text is parsed by `float()`; a list or dict gives None instead of raising |
| Schemas.FirstFormatIsFirst | app/ingestion/transformers/schemas.py:55-60 | the format loop fails exactly when no format parses, and otherwise returns the parse of the first format that succeeds |
| Schemas.NormalizeTimestamp | app/ingestion/transformers/schemas.py:37-66 | a naive datetime is taken as UTC and an aware one is shifted to UTC; text goes through the five formats in order; None, lists and dicts raise `ValueError` |
| Schemas.Now | app/ingestion/extractors/coingecko.py:170 | `datetime.now(timezone.utc)` is an aware datetime with offset zero |
| Schemas.MakeRawRecord | app/ingestion/transformers/schemas.py:9-66 | a `RawCryptoRecord` is built exactly when its timestamp validates, and each field is its validator's output |
| Schemas.RequiredStr | app/ingestion/transformers/schemas.py:72-74 | a required `str` field is accepted exactly when it is present and is a string |
| Schemas.OptionalStr | app/ingestion/transformers/schemas.py:77 | an `Optional[str]` field is None exactly when it is absent or null; otherwise it holds the stored string |
| Schemas.OptionalFloat | app/ingestion/transformers/schemas.py:86-88 | an `Optional[float]` field is None when it is absent or null, is a stored number as it is, and refuses lists and dicts |
| Schemas.OptionalIntOk | app/ingestion/transformers/schemas.py:75 | an `Optional[int]` field accepts absence and null and refuses lists and dicts |
| Schemas.StampOf | app/ingestion/extractors/coingecko.py:170 | `last_updated or datetime.now(timezone.utc)`: a non-empty `last_updated` is handed on as it is; otherwise the time is now |
| Extraction.RequestWithRetry | app/ingestion/extractors/coingecko.py:50-85 | the `for attempt in range(MAX_RETRIES)` loop ends, and sleeps, exactly as `RetryFrom` says from attempt 0 |
| Extraction.RetryFrom | app/ingestion/extractors/coingecko.py:50-85 | defines `_request_with_retry` from an attempt on: a 2xx body, a 429 backoff, an HTTP error, or a request error retried after the base delay |
| Extraction.Backoff | app/ingestion/extractors/coingecko.py:63 | defines the 429 backoff `RATE_LIMIT_DELAY * 2 ** attempt` |
| Extraction.Pauses | app/ingestion/extractors/coingecko.py:62-66 | one sleep per retried attempt: `RATE_LIMIT_DELAY * 2 ** attempt` after a 429, the base delay after a request error |
| Extraction.RetryStopsAtFirstFinal | app/ingestion/extractors/coingecko.py:58-83 | the call stops at the first response that is not retried and ends as that response says, after one sleep per earlier attempt |
| Extraction.RetryExhausted | app/ingestion/extractors/coingecko.py:85 | when all three attempts are retried, the call raises "Max retries exceeded" after three sleeps |
| Extraction.ThreeRateLimits | app/ingestion/extractors/coinpaprika.py:49-58 | three 429s in a row sleep the base delay, twice it and four times it, then raise "Max retries exceeded" |
| Extraction.HttpErrorNotRetried | app/ingestion/extractors/coinpaprika.py:60-68 | a refused status other than 429 raises an APIException carrying that status at the first attempt, with no sleep |
| Extraction.RequestErrorsRetried | app/ingestion/extractors/coinpaprika.py:69-75 | request errors are retried after the base delay, and the third one is raised as an APIException |
| Extraction.RetrySound | app/ingestion/extractors/coingecko.py:58-69 | a body is returned only as the decoded body of a 2xx reply to one of the three attempts, and at most three sleeps are made |
| Extraction.KeepSince | app/ingestion/extractors/coingecko.py:126-138 | an item is dropped exactly when its `last_updated` is a non-empty string that parses to an aware time at or before the checkpoint; the loop crashes exactly on a non-dict item or a truthy `last_updated` that is not a string |
| Extraction.FilterSince | app/ingestion/extractors/coingecko.py:124-139 | the filter loop's result is the model's `Since` of the items |
| Extraction.SinceKeeps | app/ingestion/extractors/coingecko.py:124-139 | the filter fails exactly when some item crashes it; otherwise it keeps exactly the items `KeepSince` keeps, and no more items than it was given |
| Extraction.SinceFailsOnward | app/ingestion/extractors/coingecko.py:124-139 | once an item crashes the loop, the items after it change nothing |
| Extraction.FilterIncremental | app/ingestion/extractors/coinpaprika.py:97-123 | the checkpoint step's result is the model's `Incremental` of the items |
| Extraction.IncrementalKeeps | app/ingestion/extractors/coinpaprika.py:97-123 | without a checkpoint every item is kept; with one, a crash becomes an ExtractionException, and otherwise the kept items are exactly the ones `KeepSince` keeps |
| Extraction.NormalizeEach | app/ingestion/extractors/coingecko.py:157-186 | the `normalize` loop's result is the model's `FilterMap` of the items |
| Extraction.FilterMapExactly | app/ingestion/extractors/coingecko.py:184-186 | refused items are dropped without stopping the batch: there are no more outputs than items, and the outputs are exactly the candidates of the accepted items |
| CoinGecko.FetchData | app/ingestion/extractors/coingecko.py:87-153 | the pagination loop and then the filter compute the model's `Fetch`, both the result and the sleeps |
| CoinGecko.Fetch | app/ingestion/extractors/coingecko.py:87-153 | defines `fetch_data`: the markets pages from page 1, stopping at an empty or short page or after page 2, with a pause between pages, then the checkpoint filter |
| CoinGecko.Then | app/ingestion/extractors/coingecko.py:114 | `all_data.extend(data)`: a page's items go in front of the later pages' items, and its sleeps in front of theirs; an error from a later page is the result |
| CoinGecko.ThenThen | app/ingestion/extractors/coingecko.py:114 | extending page by page is extending once by the pages' items together |
| CoinGecko.FetchReadsTwoPages | app/ingestion/extractors/coingecko.py:116-118 | page 3 is never requested: the result depends on the responses to pages 1 and 2 alone |
| CoinGecko.ShortFirstPage | app/ingestion/extractors/coingecko.py:117-118 | a first page shorter than 250 items is all there is: no second request and no sleep between pages |
| CoinGecko.FullFirstPage | app/ingestion/extractors/coingecko.py:114-121 | a full first page is followed by page 2 after one sleep of the base delay, and the items are the two pages' items in order |
| CoinGecko.ApiErrorPassesThrough | app/ingestion/extractors/coingecko.py:144-145 | an APIException on the first page reaches the caller unchanged |
| CoinGecko.FetchSleepsBounded | app/ingestion/extractors/coingecko.py:58-121 | at most seven sleeps: three per page and one between the pages |
| CoinGecko.FetchFilters | app/ingestion/extractors/coingecko.py:123-139 | every item returned is one of the pages' items that the checkpoint filter keeps, and no more items than the pages hold |
| CoinGecko.Number | app/ingestion/extractors/coingecko.py:167-169 | a validated optional number is handed on as null or as that number |
| CoinGecko.NormalizeItem | app/ingestion/extractors/coingecko.py:160-186 | a candidate is produced only for an item that validates; it is tagged COINGECKO, has no source id and no name, and its symbol is upper-case and at most 20 characters |
| CoinGecko.NormalizeItemFields | app/ingestion/extractors/coingecko.py:165-181 | the candidate's symbol is the stripped, upper-cased symbol, and its three numbers are the validated `current_price`, `market_cap` and `total_volume` |
| CoinGecko.NormalizeItemTimestamp | app/ingestion/extractors/coingecko.py:170 | the time is `last_updated` parsed through the five formats, or now when `last_updated` is missing or empty; in that case only a symbol longer than 20 characters refuses the item |
| CoinGecko.Normalize | app/ingestion/extractors/coingecko.py:155-189 | the loop returns the candidates of the items that validate, in order |
| CoinGecko.NormalizedAreClean | app/ingestion/extractors/coingecko.py:155-189 | every candidate is a COINGECKO one with an upper-case symbol of at most 20 characters, and there are no more candidates than items |
| CoinPaprika.FetchData | app/ingestion/extractors/coinpaprika.py:79-127 | the request, the list check and then the filter compute the model's `Fetch`, both the result and the sleeps |
| CoinPaprika.Fetch | app/ingestion/extractors/coinpaprika.py:79-127 | defines `fetch_data`: one tickers request, the list check, then the checkpoint filter |
| CoinPaprika.FetchUnexpectedFormat | app/ingestion/extractors/coinpaprika.py:91-95 | a body that is not a list ends in an ExtractionException whose message wraps "Unexpected response format from CoinPaprika" |
| CoinPaprika.FetchSound | app/ingestion/extractors/coinpaprika.py:87-116 | a successful fetch returns the items of a list body from a 2xx reply, all of them when there is no checkpoint, after at most three sleeps |
| CoinPaprika.Quotes | app/ingestion/transformers/schemas.py:76 | `quotes` defaults to an empty dict when absent, and a validated value is the stored dict |
| CoinPaprika.NormalizeItem | app/ingestion/extractors/coinpaprika.py:136-168 | a candidate is produced only for an item that validates and whose USD quote is a dict; it is tagged COINPAPRIKA, carries the item's `id` as source id and its `name`, and its symbol is upper-case and at most 20 characters |
| CoinPaprika.NormalizeItemFields | app/ingestion/extractors/coinpaprika.py:142-151 | the candidate's price, market cap and volume are `coerce_to_float` of the USD quote's entries, so a missing entry gives None |
| CoinPaprika.NormalizeItemTimestamp | app/ingestion/extractors/coinpaprika.py:150 | without a non-empty `last_updated` the time is now, and only a symbol longer than 20 characters refuses the item |
| CoinPaprika.Normalize | app/ingestion/extractors/coinpaprika.py:129-171 | the loop returns the candidates of the items that validate, in order |
| CoinPaprika.NormalizedAreClean | app/ingestion/extractors/coinpaprika.py:129-171 | every candidate is a COINPAPRIKA one with a source id, a name and a clean symbol, and there are no more candidates than items |
| CsvExtractor.ColumnMapNames | app/ingestion/extractors/csv_extractor.py:24-29 | `COLUMN_MAP` renames exactly ticker, price, vol and date, and to exactly symbol, price_usd, volume_24h and timestamp |
| CsvExtractor.CleanHeader | app/ingestion/extractors/csv_extractor.py:61-62 | each header name is stripped and lower-cased, in place |
| CsvExtractor.ZipDistinct | app/ingestion/extractors/csv_extractor.py:58-64 | the row dictionary `csv.DictReader` builds holds each key once |
| CsvExtractor.ZipGet | app/ingestion/extractors/csv_extractor.py:58-64 | with distinct header names, each column's key holds that column's cell, or None past the end of a short row |
| CsvExtractor.ZipGetAbsent | app/ingestion/extractors/csv_extractor.py:58-64 | a name missing from the header is not a key of the row |
| CsvExtractor.RenameColumns | app/ingestion/extractors/csv_extractor.py:66-69 | the first loop builds the model's `Renamed` row |
| CsvExtractor.RenamedGet | app/ingestion/extractors/csv_extractor.py:66-69 | after the first loop each internal name holds its CSV column's value when that column is in the row, no other key is present, and each key occurs once |
| CsvExtractor.MapRowLoops | app/ingestion/extractors/csv_extractor.py:66-74 | both loops together build the model's `MapRow` of the row |
| CsvExtractor.WithExtrasGet | app/ingestion/extractors/csv_extractor.py:71-74 | after the second loop a key keeps its renamed value if it has one; a COLUMN_MAP source name stays absent; any other key takes the row's value |
| CsvExtractor.WithExtrasDistinct | app/ingestion/extractors/csv_extractor.py:71-74 | the second loop keeps every key of the mapped row unique |
| CsvExtractor.NamesDisjoint | app/ingestion/extractors/csv_extractor.py:24-29 | no CSV name of COLUMN_MAP is also an internal name, and the internal names are distinct |
| CsvExtractor.MapRowDistinct | app/ingestion/extractors/csv_extractor.py:66-74 | a mapped row holds each key once |
| CsvExtractor.MapRowInternal | app/ingestion/extractors/csv_extractor.py:66-74 | an internal name holds its CSV column's value when the row has that column, and otherwise the row's own value under the internal name |
| CsvExtractor.MapRowDropsColumnNames | app/ingestion/extractors/csv_extractor.py:73 | the CSV names ticker, price, vol and date never survive the mapping |
| CsvExtractor.MapRowCopies | app/ingestion/extractors/csv_extractor.py:72-74 | a column that is neither renamed nor an internal name is copied through unchanged |
| CsvExtractor.Records | app/ingestion/extractors/csv_extractor.py:64-76 | there are no more records than rows |
| CsvExtractor.ReadRecords | app/ingestion/extractors/csv_extractor.py:64-76 | the row loop appends the mapped records, in order, as the model's `Records` |
| CsvExtractor.RecordsDistinct | app/ingestion/extractors/csv_extractor.py:64-76 | every record read holds each key once |
| CsvExtractor.KeepRecordExactly | app/ingestion/extractors/csv_extractor.py:81-95 | a record is dropped exactly when its timestamp is truthy and validates to a time at or before the checkpoint; a missing or unparseable timestamp keeps it |
| CsvExtractor.KeptExactly | app/ingestion/extractors/csv_extractor.py:79-96 | the filter keeps exactly the records it accepts, in order, no more than there were, and never fails |
| CsvExtractor.FilterRecords | app/ingestion/extractors/csv_extractor.py:79-96 | the filter loop returns the model's `Kept` records |
| CsvExtractor.AsValues | app/ingestion/extractors/csv_extractor.py:99 | the records are returned as dictionaries, one per record |
| CsvExtractor.FetchData | app/ingestion/extractors/csv_extractor.py:35-107 | the whole read computes the model's `Fetch` of the file |
| CsvExtractor.Fetch | app/ingestion/extractors/csv_extractor.py:35-107 | defines `fetch_data`: the file check, the header cleaning, the row mapping and the checkpoint filter |
| CsvExtractor.FetchShape | app/ingestion/extractors/csv_extractor.py:43-107 | the read fails exactly when the file is missing ("CSV file not found: " and the path) or unreadable ("Failed to read CSV file: " and the reason); otherwise there are no more records than rows, each a dictionary with unique keys |
| CsvExtractor.First | app/ingestion/extractors/csv_extractor.py:119-125 | `item.get(a, item.get(b))` finds a value exactly when either key is present |
| CsvExtractor.FallbackRead | app/ingestion/extractors/csv_extractor.py:122-124 | the model's fallback read is `item.get(a, item.get(b))` |
| CsvExtractor.Record | app/ingestion/extractors/csv_extractor.py:119-126 | the raw record's symbol and numbers are the validators' outputs on the fallback reads |
| CsvExtractor.Build | app/ingestion/extractors/csv_extractor.py:130-139 | the unified record is tagged CSV, carries the raw record's symbol and numbers and the given id and name, and is refused only for a symbol longer than 20 characters |
| CsvExtractor.NormalizeItem | app/ingestion/extractors/csv_extractor.py:116-144 | a candidate comes only from a dictionary; it is tagged CSV, and its symbol is upper-case and at most 20 characters |
| CsvExtractor.NormalizeItemFields | app/ingestion/extractors/csv_extractor.py:119-139 | the candidate's symbol, price and volume come from the fallback reads; the source id is `id` when truthy and otherwise the symbol; likewise the name |
| CsvExtractor.NormalizeMappedRow | app/ingestion/extractors/csv_extractor.py:66-76 | for a row without internal names the fallback reads make mapping a no-op: normalising the mapped row equals normalising the row |
| CsvExtractor.Normalize | app/ingestion/extractors/csv_extractor.py:109-147 | the loop returns the candidates of the items that validate, in order |
| CsvExtractor.NormalizedAreClean | app/ingestion/extractors/csv_extractor.py:142-147 | invalid records are dropped without aborting the batch: there are no more candidates than items, and each is a CSV one with a clean symbol |
| CsvExtractor.RenamedDistinct | app/ingestion/extractors/csv_extractor.py:66-69 | the first loop writes each internal name once |
| CsvExtractor.RenamedMapped | app/ingestion/extractors/csv_extractor.py:67-69 | a renamed key holds the row's value under its CSV name |
| CsvExtractor.RenamedOther | app/ingestion/extractors/csv_extractor.py:66-69 | the first loop writes no key other than the internal names |
| CsvExtractor.KeepRecord | app/ingestion/extractors/csv_extractor.py:81-95 | a record without a truthy timestamp is always kept |
| CsvExtractor.FirstThroughMapRow | app/ingestion/extractors/csv_extractor.py:119-125 | for a row without the internal name, the fallback read of a mapped row finds the CSV column's value, as the unmapped row's fallback does |
| Database.EmptyIsConsistent | app/db/models.py:58-340 | a freshly migrated database satisfies every constraint of the schema |
| Database.Rollback | app/ingestion/service.py:249-344 | a rolled-back transaction restores every table as it was when it began, but the id sequences keep their advance |
| Database.RollbackConsistent | app/ingestion/service.py:249-344 | rolling back to a consistent state keeps the database consistent, even though ids were consumed |
| Database.MappingOf | app/ingestion/asset_resolver.py:90-95 | the mapping lookup finds a row with that source and source id, and finds none exactly when no row has that key |
| Database.MappingOfAppend | app/db/models.py:174 | a mapping added later is found only when no earlier row has its key |
| Database.HasCoinAppend | app/db/models.py:74 | adding a coin keeps every earlier coin id and adds its own |
| Database.CoinsWithSymbol | app/ingestion/asset_resolver.py:103-104 | the symbol query selects exactly the coins with that symbol, and none when no coin has it |
| Database.CoinsWithSymbolAppend | app/ingestion/asset_resolver.py:103-104 | a coin added last is found last |
| Database.CoinBySymbol | app/ingestion/asset_resolver.py:103-105 | `scalar_one_or_none` returns None exactly when no coin has the symbol, a coin with the symbol when one matches, and fails with MultipleResultsFound otherwise |
| Database.SymbolQueryNeverAmbiguous | app/db/models.py:108 | while symbols are unique, the symbol query finds at most one coin (`ix_coins_symbol` is not unique, so nothing else ensures this) |
| Database.AddCoin | app/db/models.py:74-78 | a coin insert succeeds exactly when symbol (20), name (100) and slug (100) fit and the slug is new; it takes the next id and appends the coin; otherwise `coins_slug_key` is violated |
| Database.AddCoinConsistent | app/db/models.py:74-78 | a successful coin insert keeps the database consistent |
| Database.AddMapping | app/db/models.py:140-174 | a mapping insert succeeds exactly when source id (100), symbol (20) and name (100) fit, `(source, source_id)` is new and the coin exists; it appends the mapping |
| Database.AddMappingConsistent | app/db/models.py:140-174 | a successful mapping insert keeps the database consistent |
| Database.AddRaws | app/ingestion/service.py:97-115 | `save_raw_data` appends one audit row per payload, in order, and changes nothing else |
| Database.AddJob | app/ingestion/service.py:82-95 | `create_etl_job` appends a RUNNING job with the next id, no records, no checkpoint and no completion time |
| Database.AddJobConsistent | app/ingestion/service.py:82-95 | adding a job keeps the database consistent |
| Database.JobIndex | app/ingestion/service.py:356-358 | the job query finds the job with that id, and none exactly when no job has it |
| Database.MergeRow | app/ingestion/service.py:194-203 | the conflict update overwrites price, market cap, volume, source and ingestion time, and keeps coin, symbol and timestamp |
| Database.Conflicting | app/ingestion/service.py:194-199 | a proposed row conflicts with a table row that has its `(coin_id, source, timestamp)`, and with none exactly when no row has that key |
| Database.Fresh | app/ingestion/service.py:191-203 | the rows that are inserted are exactly the proposed rows that conflict with no existing row |
| Database.UpsertedPrices | app/ingestion/service.py:191-203 | after the statement each existing row is merged with the proposed row that has its key, or left as it was, and the fresh rows follow in order |
| Database.Upsert | app/ingestion/service.py:189-204 | a conflict target that no unique index matches, such as the code's `(coin_id, timestamp)`, fails before any row is looked at; with the index's target the upsert succeeds exactly when every coin exists, the proposed keys are distinct and no row collides on `(symbol, source, timestamp)`, and it then writes the merged and fresh rows; with existing coins the only failures are "affects a row a second time" and the symbol constraint |
| Database.HasArbiter | alembic/versions/003_fix_unique_constraint.py:31-57 | defines which conflict targets a unique index of the migrated schema matches: of the two targets the service can name, only `(coin_id, source, timestamp)`; a `(symbol, source, timestamp)` target, which no code names, would match `uq_crypto_symbol_source_timestamp` |
| Database.SameIndexKeySymmetric | alembic/versions/003_fix_unique_constraint.py:50-57 | sharing the index key is symmetric |
| Database.ConflictingByKey | alembic/versions/003_fix_unique_constraint.py:50-57 | whether a row conflicts depends only on its `(coin_id, source, timestamp)` |
| Database.ConflictingIsItself | app/ingestion/service.py:196 | among rows with distinct keys, the row conflicting with a member is that member |
| Database.FreshKeysUnique | app/ingestion/service.py:191-203 | the inserted rows have distinct keys when the proposed ones do |
| Database.KeysUniqueTail | app/ingestion/service.py:196 | dropping the first row keeps the keys distinct |
| Database.KeysUniquePrepend | app/ingestion/service.py:196 | a row whose key is new can be put in front without repeating a key |
| Database.UpsertConsistent | app/ingestion/service.py:191-204 | a successful upsert keeps the database consistent |
| Database.UpsertedKeysUnique | alembic/versions/003_fix_unique_constraint.py:50-57 | the upsert never creates two price rows with the same `(coin_id, source, timestamp)` |
| Database.UpsertedReferToCoins | app/db/models.py:244-248 | after the upsert every price row still refers to an existing coin |
| Database.UpsertWritesRows | app/ingestion/service.py:191-204 | after a successful upsert every proposed row is in the table under its key with its five updated values; an existing row keeps coin, symbol, source and timestamp, and is untouched when no proposed row has its key |
| Database.UpsertWritesRow | app/ingestion/service.py:191-203 | a proposed row is written under its key, by merging or by inserting |
| Database.ConflictsAfterUpsert | app/ingestion/service.py:191-203 | after the upsert every proposed row conflicts with a table row |
| Database.UpsertLeavesNothingFresh | app/ingestion/service.py:191-203 | a second run of the same upsert inserts nothing |
| Database.UpsertFixesRows | app/ingestion/service.py:194-203 | merging a table row again with the same proposed row changes nothing |
| Database.UpsertIdempotent | app/ingestion/service.py:191-204 | running the same upsert twice leaves the table as after once |
| Store.Session.constructor | app/ingestion/service.py:249 | a session starts from the tables the transaction sees |
| Resolution.NormalizedSymbol | app/ingestion/asset_resolver.py:87 | `upper().strip()` gives an upper-case symbol no longer than its input |
| Resolution.SlugChars | app/ingestion/asset_resolver.py:316 | the name filter keeps only alphanumerics and hyphens, and never lengthens the name |
| Resolution.NamePart | app/ingestion/asset_resolver.py:316 | the slug's name part is at most 20 lower-case alphanumerics or hyphens |
| Resolution.SlugCharsFromLower | app/ingestion/asset_resolver.py:316 | filtering a lower-cased name keeps it lower-case |
| Resolution.SlugShape | app/ingestion/asset_resolver.py:309-319 | the slug is the stripped lower-case symbol when the name is empty or upper-cases to the symbol; otherwise it is that base, a hyphen and at most 20 lower-case alphanumerics or hyphens |
| Resolution.GenerateSlug | app/ingestion/asset_resolver.py:309-319 | defines `_generate_slug`: the lower-cased symbol and the filtered name part joined by a hyphen, or the symbol alone |
| Resolution.CreateMapping | app/ingestion/asset_resolver.py:255-284 | `_create_mapping` writes nothing when `(source, source_id)` is already mapped, and otherwise inserts the mapping; on success the key is mapped |
| Resolution.CreateMappingIdempotent | app/ingestion/asset_resolver.py:265-272 | creating the same mapping again changes nothing |
| Resolution.CreateCoinWithMappingAdds | app/ingestion/asset_resolver.py:220-253 | a new coin takes the next id with the generated slug, its mapping is appended with the name as source name, and the other tables are untouched |
| Resolution.CreateCoinWithMappingKeeps | app/ingestion/asset_resolver.py:220-253 | creating a coin with its mapping keeps the database consistent |
| Resolution.CreateCoinWithMapping | app/ingestion/asset_resolver.py:220-253 | defines `_create_coin_with_mapping`: the coin insert with its generated slug, then the mapping insert, failing at the first statement that fails |
| Resolution.CreateCoinFailures | app/ingestion/asset_resolver.py:220-253 | creating a coin fails only on an over-long value or a duplicate slug |
| Resolution.CreateMappingFailures | app/ingestion/asset_resolver.py:255-284 | for an existing coin, creating a mapping fails only on an over-long value |
| Resolution.NameOr | app/ingestion/asset_resolver.py:128 | `source_name or normalized_symbol` is the source name unless it is missing or empty |
| Resolution.Learn | app/ingestion/asset_resolver.py:98-99 | what `resolve_asset` caches: the key and the symbol both map to the coin, and the loaded flag is kept |
| Resolution.LookupOrCreate | app/ingestion/asset_resolver.py:86-136 | an existing mapping answers without writing anything; a failing statement leaves the tables as they were |
| Resolution.LookupLinksExistingCoin | app/ingestion/asset_resolver.py:102-122 | an unmapped key whose symbol names a coin is linked to that coin by one new mapping |
| Resolution.LookupCreatesCoin | app/ingestion/asset_resolver.py:124-136 | an unmapped key whose symbol names no coin creates a coin with the next id, the upper-cased symbol, the source name or the symbol as name, and the generated slug, plus its mapping |
| Resolution.LookupFailures | app/ingestion/asset_resolver.py:86-136 | while symbols are unique, a lookup fails only on an over-long value or a duplicate slug |
| Resolution.LookupUnmapped | app/ingestion/asset_resolver.py:102-136 | after resolving an unmapped key, the symbol query finds the resolved coin, at most one coin was added and exactly one mapping, for that key |
| Resolution.SameSymbolSameCoin | app/ingestion/asset_resolver.py:102-136 | two unmapped keys whose symbols upper-case alike resolve to the same coin, adding at most one coin and two mappings |
| Resolution.KeyStaysUnmapped | app/ingestion/asset_resolver.py:102-136 | resolving one key leaves any other unmapped key unmapped |
| Resolution.LookupKeepsTables | app/ingestion/asset_resolver.py:86-136 | a lookup keeps the database consistent, symbols unique, every coin and every existing mapping; on success the key is mapped to the existing coin returned |
| Resolution.LookupLinkKeeps | app/ingestion/asset_resolver.py:102-122 | the link branch keeps the same facts |
| Resolution.LookupCreateKeeps | app/ingestion/asset_resolver.py:124-136 | the create branch keeps the same facts |
| Resolution.ResolveAssetStep | app/ingestion/asset_resolver.py:53-136 | a cached key answers from the cache and changes nothing; a failure changes neither caches nor tables; on success the key is cached to the result and the flag is kept |
| Resolution.ResolveAssetKeepsInvariant | app/ingestion/asset_resolver.py:53-136 | `resolve_asset` keeps the resolver invariant: consistent tables, unique symbols, every cached id an existing coin and every cached key mapped to its cached coin; the result is mapped from the key |
| Resolution.ResolveAssetRepeat | app/ingestion/asset_resolver.py:82-84 | resolving the same key again answers from the cache and changes nothing, whatever symbol and name come with it |
| Resolution.CacheIsTransparent | app/ingestion/asset_resolver.py:82-100 | with caches that agree with the mapping table, a cached resolve returns and writes what a cold one would |
| Resolution.NoCachesKeepInvariant | app/ingestion/asset_resolver.py:45-51 | a new resolver's empty caches satisfy the invariant over any consistent database |
| Resolution.CacheBackedAfterLearning | app/ingestion/asset_resolver.py:98-99 | caching an existing coin keeps every cached id an existing coin |
| Resolution.AgreesAfterAppend | app/ingestion/asset_resolver.py:109-118 | caching a newly inserted mapping keeps the cache agreeing with the table |
| Resolution.SymbolsUniqueAfterAppend | app/ingestion/asset_resolver.py:124-136 | a coin with a new symbol keeps symbols unique |
| Resolution.EnsureMappingStep | app/ingestion/asset_resolver.py:286-307 | a cached key writes nothing; a failure changes neither caches nor tables; on success only the mapping cache changes, and it holds the key |
| Resolution.EnsureMappingKeeps | app/ingestion/asset_resolver.py:286-307 | ensuring a mapping for an existing coin keeps the database consistent, the coins unchanged and the caches backed |
| Resolution.NewCoinForSymbol | app/ingestion/asset_resolver.py:182-190 | a failed creation leaves the tables as they were |
| Resolution.NewCoinForSymbolKeeps | app/ingestion/asset_resolver.py:182-190 | a coin created for an unknown symbol keeps the database consistent and symbols unique, and the symbol query then finds it |
| Resolution.ResolveBySymbolStep | app/ingestion/asset_resolver.py:138-193 | a cached symbol answers from the cache and changes nothing; on success the symbol is cached to the result; a failure leaves the tables and the mapping cache as they were |
| Resolution.ResolveBySymbolKeepsBacking | app/ingestion/asset_resolver.py:138-193 | `resolve_by_symbol` keeps the database consistent, symbols unique and every cached id an existing coin, returns an existing coin, and on a cache miss the one the symbol query finds |
| Resolution.BySymbolFoundKeeps | app/ingestion/asset_resolver.py:163-180 | the found-coin branch keeps the same facts |
| Resolution.BySymbolCreatedKeeps | app/ingestion/asset_resolver.py:182-193 | the new-coin branch keeps the same facts |
| Resolution.CachingKeepsBacked | app/ingestion/asset_resolver.py:169 | caching an existing coin under a symbol or key keeps the caches backed |
| Resolution.CoinIdBySymbolStep | app/ingestion/asset_resolver.py:195-218 | `get_coin_id_by_symbol` never writes and touches only the symbol cache |
| Resolution.CoinIdBySymbolKeepsInvariant | app/ingestion/asset_resolver.py:195-218 | it keeps the resolver invariant, never fails while symbols are unique, returns only existing coins, and on a cache miss returns None exactly when no coin has the symbol |
| Resolution.SymbolLearnKeeps | app/ingestion/asset_resolver.py:216 | caching an existing coin under a symbol keeps the invariant |
| Resolution.MappingEntries | app/ingestion/asset_resolver.py:327-334 | the preloaded mapping entries have exactly the table's `(source, source_id)` keys |
| Resolution.SymbolEntries | app/ingestion/asset_resolver.py:336-342 | the preloaded symbol entries have exactly the coins' symbols |
| Resolution.MappingEntriesAgree | app/ingestion/asset_resolver.py:327-334 | with unique mapping keys, each preloaded entry is the coin its mapping names |
| Resolution.MappingEntryAgrees | app/ingestion/asset_resolver.py:327-334 | the same, for one key |
| Resolution.MappingEntriesFromRows | app/ingestion/asset_resolver.py:327-334 | each preloaded mapping id comes from a mapping row |
| Resolution.SymbolEntriesFromCoins | app/ingestion/asset_resolver.py:336-342 | each preloaded symbol id is an existing coin |
| Resolution.MappingEntriesStep | app/ingestion/asset_resolver.py:332-334 | one iteration of the mapping loop writes one entry |
| Resolution.SymbolEntriesStep | app/ingestion/asset_resolver.py:341-342 | one iteration of the coin loop writes one entry |
| Resolution.UnionUpdate | app/ingestion/asset_resolver.py:332-342 | writing an entry into the merged cache is writing it into the loaded part |
| Resolution.PreloadKeepsInvariant | app/ingestion/asset_resolver.py:321-351 | preloading keeps the invariant and sets the flag; a loaded resolver is left as it was; otherwise every mapping key and every coin symbol is cached |
| Resolution.PreloadCovers | app/ingestion/asset_resolver.py:327-342 | after the loops every mapping key and every coin symbol is cached |
| Resolution.PreloadAgrees | app/ingestion/asset_resolver.py:327-334 | the preloaded mapping cache agrees with the table |
| Resolution.PreloadBacked | app/ingestion/asset_resolver.py:327-342 | every preloaded id is an existing coin |
| Resolution.AssetResolver.constructor | app/ingestion/asset_resolver.py:45-51 | a new resolver has both caches empty and the flag down |
| Resolution.AssetResolver.ResolveAsset | app/ingestion/asset_resolver.py:53-136 | the method's result, caches and tables are those of `ResolveAssetStep` |
| Resolution.AssetResolver.LookupOrCreateIn | app/ingestion/asset_resolver.py:86-136 | the uncached part writes the session as `LookupOrCreate` states |
| Resolution.AssetResolver.CreateCoinWithMappingIn | app/ingestion/asset_resolver.py:220-253 | the session holds the new coin and mapping on success and is unchanged on failure |
| Resolution.AssetResolver.EnsureMappingExists | app/ingestion/asset_resolver.py:286-307 | the method's result, caches and tables are those of `EnsureMappingStep` |
| Resolution.AssetResolver.ResolveBySymbol | app/ingestion/asset_resolver.py:138-193 | the method's result, caches and tables are those of `ResolveBySymbolStep` |
| Resolution.AssetResolver.GetCoinIdBySymbol | app/ingestion/asset_resolver.py:195-218 | the method's result and caches are those of `CoinIdBySymbolStep`, and the session is not written |
| Resolution.AssetResolver.PreloadCache | app/ingestion/asset_resolver.py:321-351 | the two loops leave the caches as `PreloadStep` states |
| Resolution.AssetResolver.ClearCache | app/ingestion/asset_resolver.py:353-365 | both caches are empty and the flag is down, so `get_cache_stats` reports 0, 0 and False |
| Resolution.AssetResolver.CacheStats | app/ingestion/asset_resolver.py:359-365 | defines `get_cache_stats`: the sizes of the two caches and the loaded flag |
| Drift.SeverityValue | app/ingestion/drift.py:13-17 | each severity's value is one of "info", "warning" and "critical" |
| Drift.TypeValue | app/ingestion/drift.py:84-203 | each drift type's value is one of the five type names the checks write |
| Drift.Names | app/ingestion/drift.py:65 | the frame's column names, one per column, in order |
| Drift.Distinct | app/ingestion/drift.py:65-66 | `set(...)`: no element twice, and exactly the elements of the list |
| Drift.Absent | app/ingestion/drift.py:69 | a set difference: exactly the elements of the first set not in the second, empty exactly when the first is contained in the second |
| Drift.SchemaFinding | app/ingestion/drift.py:71-111 | each missing column gives either a rename or a missing finding about that column |
| Drift.MissingResults | app/ingestion/drift.py:71-111 | one finding per missing column, in order |
| Drift.ExtraFinding | app/ingestion/drift.py:114-124 | the extra-columns finding is an INFO `schema_extra` listing the extra columns |
| Drift.SchemaMissingOnePerColumn | app/ingestion/drift.py:64-111 | `check_schema` reports each expected column that is absent exactly once; it is a WARNING rename when a close match exists, and otherwise a CRITICAL missing finding with confidence 1.0 |
| Drift.SchemaResults | app/ingestion/drift.py:58-128 | defines the findings of `check_schema`: one rename or missing finding per expected column that is absent, then one finding for the extra columns when there are any |
| Drift.RenameConfidence | app/ingestion/drift.py:73-92 | a rename names a present column that differs from the missing one and scores at least the cutoff; its confidence is the similarity ratio, between 0 and 1 |
| Drift.SchemaExtraAtMostOne | app/ingestion/drift.py:113-124 | there is at most one extra-columns finding, always last, present exactly when some actual column is not expected, and listing exactly those columns once each |
| Drift.NoSchemaDriftIffSameColumns | app/ingestion/drift.py:64-128 | `check_schema` finds nothing exactly when the actual columns are the expected ones |
| Drift.NullRatio | app/ingestion/drift.py:137 | a column's null ratio exists exactly for a non-empty frame; it lies between 0 and 1 and is the nulls divided by the rows |
| Drift.Rank | app/ingestion/drift.py:13-17 | severities are ranked INFO, WARNING, CRITICAL |
| Drift.SeverityMonotone | app/ingestion/drift.py:141-147 | severity does not drop as the ratio grows; it is CRITICAL exactly above 0.5 and INFO exactly at or below 0.25 |
| Drift.QualityFindingShape | app/ingestion/drift.py:140-166 | a drifted column gives a `quality_nulls` finding with its ratio, which exceeds the threshold; the severity follows the ratio and the confidence is one minus the ratio |
| Drift.QualityResultsExactly | app/ingestion/drift.py:136-173 | `check_data_quality` reports exactly the columns whose null ratio exceeds the threshold, no more findings than columns |
| Drift.QualityResultsShape | app/ingestion/drift.py:140-166 | every quality finding has a ratio above the threshold, the matching severity and a confidence between 0 and 1 |
| Drift.QualityResults | app/ingestion/drift.py:130-173 | defines the findings of `check_data_quality`: one per column over the null threshold, in column order |
| Drift.FindColumn | app/ingestion/drift.py:191-194 | a column is found exactly when the frame has one by that name |
| Drift.TypeResultsSound | app/ingestion/drift.py:188-217 | every type finding is a WARNING with confidence 1.0 about an expected column that is present, whose actual dtype does not contain the expected one case-insensitively |
| Drift.TypeResultsComplete | app/ingestion/drift.py:190-214 | every present expected column whose dtype mismatches is reported |
| Drift.TypeDriftResults | app/ingestion/drift.py:175-217 | defines the findings of `check_type_drift`: one per present column whose type differs from the expected one |
| Drift.NoExpectedTypesNoResults | app/ingestion/drift.py:185-186 | without expected types, or with an empty dict, the type check finds nothing |
| Drift.AnyCritical | app/ingestion/drift.py:237 | `any(r.severity == CRITICAL ...)` |
| Drift.AnyCriticalAppend | app/ingestion/drift.py:229-237 | a critical finding in the joined lists is one in either |
| Drift.SchemaCritical | app/ingestion/drift.py:64-128 | the schema findings are critical exactly when some expected column is absent and has no close match |
| Drift.MissingCriticalUnmatched | app/ingestion/drift.py:100-110 | a critical missing-column finding comes from an unmatched missing column |
| Drift.UnmatchedMissingCritical | app/ingestion/drift.py:100-110 | an unmatched missing column gives a critical finding |
| Drift.QualityCritical | app/ingestion/drift.py:136-173 | the quality findings are critical exactly when some drifted column's null ratio exceeds 0.5 |
| Drift.CriticalNullsStep | app/ingestion/drift.py:140-147 | a frame has a critical null column exactly when its other columns do or its last one has a ratio above the threshold and 0.5 |
| Drift.CriticalMeans | app/ingestion/drift.py:219-246 | `detect_drift` reports critical drift exactly when a required column is missing without a close match or a column's null ratio exceeds the threshold and 0.5 |
| Drift.Occurrences | app/ingestion/drift.py:256-258 | a key occurs in the history exactly when its count is positive |
| Drift.TallyCounts | app/ingestion/drift.py:253-258 | the counting loop has exactly the keys that occur, each counted as often as it occurs |
| Drift.SumOverBump | app/ingestion/drift.py:257-258 | one increment adds one to the total over the known keys |
| Drift.SumOverEmpty | app/ingestion/drift.py:253-254 | the empty counters total zero |
| Drift.TallySum | app/ingestion/drift.py:253-258 | counting keys drawn from a known set totals the number of keys |
| Drift.SeverityKeys | app/ingestion/drift.py:257 | the severity value of each finding, in order |
| Drift.TypeKeys | app/ingestion/drift.py:258 | the drift type of each finding, in order |
| Drift.KeysStep | app/ingestion/drift.py:256-258 | one more finding adds one severity key and one type key |
| Drift.TallyAppend | app/ingestion/drift.py:257-258 | counting one more key adds one to its counter |
| Drift.SummaryCounts | app/ingestion/drift.py:248-269 | the summary's total is the history length, each severity and each type is counted as often as it occurs, an empty history has empty counters and no latest time, and otherwise the latest time is the last finding's |
| Drift.SummarySums | app/ingestion/drift.py:253-266 | the severity counts and the type counts each add up to the total |
| Drift.Summarize | app/ingestion/drift.py:248-269 | defines `get_drift_summary`: the total, the counts by severity and by type, and the timestamp of the latest finding |
| Drift.SchemaConfidencesInRange | app/ingestion/drift.py:25 | every schema finding has a confidence between 0 and 1 |
| Drift.QualityConfidencesInRange | app/ingestion/drift.py:25 | every quality finding has a confidence between 0 and 1 |
| Drift.TypeConfidencesInRange | app/ingestion/drift.py:25 | every type finding has a confidence between 0 and 1 |
| Drift.AppendAssociative | app/ingestion/drift.py:127 | extending the history with two checks in turn is extending it by both |
| Drift.DriftDetector.constructor | app/ingestion/drift.py:47-56 | a detector keeps its expected columns and thresholds and starts with an empty history |
| Drift.DriftDetector.CheckSchema | app/ingestion/drift.py:58-128 | `check_schema` returns the schema findings and appends them to the history |
| Drift.DriftDetector.CheckDataQuality | app/ingestion/drift.py:130-173 | `check_data_quality` returns the quality findings and appends them to the history |
| Drift.DriftDetector.CheckTypeDrift | app/ingestion/drift.py:175-217 | `check_type_drift` returns the type findings and appends them to the history |
| Drift.DriftDetector.DetectDrift | app/ingestion/drift.py:219-246 | `detect_drift` returns the schema then the quality findings, whether any is critical, and appends both to the history |
| Drift.DriftDetector.GetDriftSummary | app/ingestion/drift.py:248-269 | the loop computes the model's `Summarize` of the history |
| Drift.DriftDetector.ClearHistory | app/ingestion/drift.py:271-273 | the history is emptied |
| Metrics.HttpKeyLtIsStrictTotalOrder | app/core/middleware.py:179 | Python's order on `(method, status)` keys, which `sorted` uses, is a strict total order |
| Metrics.EtlKeyLtIsStrictTotalOrder | app/core/middleware.py:189 | Python's order on `(source, status)` keys is a strict total order |
| Metrics.SortedHttpKeys | app/core/middleware.py:179 | `sorted(self._http_requests.items())` visits every key exactly once, in ascending order |
| Metrics.SortedEtlKeys | app/core/middleware.py:189 | `sorted(self._etl_runs.items())` visits every key exactly once, in ascending order |
| Metrics.SortedSources | app/core/middleware.py:199 | `sorted(self._etl_last_duration.items())` visits every source exactly once, in ascending order |
| Metrics.SortHttpKeys | app/core/middleware.py:179 | the sort returns the model's sorted request keys |
| Metrics.SortEtlKeys | app/core/middleware.py:189 | the sort returns the model's sorted run keys |
| Metrics.SortSources | app/core/middleware.py:199 | the sort returns the model's sorted sources |
| Metrics.HttpSamples | app/core/middleware.py:179-182 | one `http_requests_total{method=...,status=...} count` line per key, in key order |
| Metrics.EtlSamples | app/core/middleware.py:189-192 | one `etl_runs_total{source=...,status=...} count` line per key, in key order |
| Metrics.DurationSamples | app/core/middleware.py:199-202 | one `etl_last_duration_seconds{source=...}` line per source, in key order, with the duration to three decimals |
| Metrics.HttpSampleLines | app/core/middleware.py:179-182 | the loop appends the request sample lines |
| Metrics.EtlSampleLines | app/core/middleware.py:189-192 | the loop appends the run sample lines |
| Metrics.DurationSampleLines | app/core/middleware.py:199-202 | the loop appends the duration sample lines |
| Metrics.LinesHeaders | app/core/middleware.py:174-204 | the output has the two HELP and TYPE lines of each metric before its samples, and an empty line between metrics |
| Metrics.LinesHttpSamples | app/core/middleware.py:177-182 | the request samples follow the first two header lines, in key order |
| Metrics.LinesEtlSamples | app/core/middleware.py:184-192 | the run samples follow the second metric's headers, in key order |
| Metrics.LinesDurationSamples | app/core/middleware.py:194-202 | the duration samples follow the third metric's headers, in key order |
| Metrics.PrometheusLines | app/core/middleware.py:172-204 | defines the lines of `get_prometheus_output`: the three metric families with their HELP and TYPE lines and their sorted samples |
| Metrics.PrometheusListsEveryRequest | app/core/middleware.py:172-204 | every recorded request count appears in the output |
| Metrics.PrometheusListsEveryRun | app/core/middleware.py:172-204 | every recorded run count appears in the output |
| Metrics.PrometheusListsEveryDuration | app/core/middleware.py:172-204 | every recorded duration appears in the output |
| Metrics.MetricsCollector.constructor | app/core/middleware.py:153-156 | a new collector has three empty dictionaries |
| Metrics.MetricsCollector.IncrementHttpRequest | app/core/middleware.py:158-161 | the `(method, status)` counter goes up by one from zero or its value; other counters and dictionaries are unchanged |
| Metrics.MetricsCollector.IncrementEtlRun | app/core/middleware.py:163-166 | the `(source, status)` counter goes up by one from zero or its value; nothing else changes |
| Metrics.MetricsCollector.SetEtlDuration | app/core/middleware.py:168-170 | the source's last duration is overwritten; nothing else changes |
| Metrics.MetricsCollector.GetPrometheusOutput | app/core/middleware.py:172-204 | the output is the model's lines joined by newlines |
| Metrics.Dispatch | app/core/middleware.py:214-226 | the response passes through unchanged; a request to `/metrics` is not counted, and any other is counted once under its method and response status |
| Service.ErrorText | app/ingestion/service.py:321-338 | the text stored for an ExtractionException is its message; other errors carry `str(e)` |
| Service.SourceIdEntry | app/ingestion/service.py:216-235 | an item adds an entry only when it is a dict, and only with a non-empty symbol and a truthy source id |
| Service.Entries | app/ingestion/service.py:215-235 | one entry attempt per raw item, in order |
| Service.AssembleErr | app/ingestion/service.py:215-235 | building the map fails exactly when some item raises |
| Service.AssembleOk | app/ingestion/service.py:234-235 | the map's keys are exactly the symbols some item enters, each holding the id of the last item that enters it |
| Service.AssembleLastWins | app/ingestion/service.py:207-237 | both: the build fails exactly when an item raises, and otherwise the last entry for a symbol wins |
| Service.LastEntryForPrefix | app/ingestion/service.py:234-235 | an entry is the last for its symbol exactly when it is the last in the earlier items and the final item does not enter that symbol |
| Service.AssembleKeys | app/ingestion/service.py:234-235 | a symbol is a key exactly when some item enters it |
| Service.AssembleValue | app/ingestion/service.py:234-235 | a key holds the id of the last item that enters it |
| Service.AssembleFailsOnward | app/ingestion/service.py:215-235 | once an item raises, later items do not change the outcome |
| Service.SourceIdMapLastWins | app/ingestion/service.py:207-237 | `_build_source_id_map` fails exactly when an item raises; otherwise every key is a non-empty symbol with a truthy id, and each symbol holds the id of the last item for it |
| Service.SourceIdMap | app/ingestion/service.py:207-237 | defines the map `_build_source_id_map` returns: each item's upper-cased symbol to its source id, the last item winning, or the error an item raises |
| Service.BuildSourceIdMap | app/ingestion/service.py:207-237 | the loop builds the model's `SourceIdMap` |
| Service.SourceIdFor | app/ingestion/service.py:143-149 | the source id is the map's entry for the record's symbol, and the symbol itself when the map has none |
| Service.KeyIndex | app/ingestion/service.py:163-166 | finds the pair that already holds a `(coin_id, timestamp)` key, or reports that none does |
| Service.AssignReplaces | app/ingestion/service.py:163-166 | assigning a key the dict holds replaces that pair in place |
| Service.AssignAppends | app/ingestion/service.py:163-166 | assigning a new key appends the pair |
| Service.AssignShape | app/ingestion/service.py:163-166 | a dict assignment keeps keys distinct, keeps every key and holds the new pair |
| Service.AssignKeepsKeys | app/ingestion/service.py:163-166 | after an assignment, the new key and every earlier key are present |
| Service.DedupDistinct | app/ingestion/service.py:163-167 | the de-duplicated pairs have distinct keys and are no more than the resolved ones |
| Service.DedupCovers | app/ingestion/service.py:163-167 | every resolved pair's key survives de-duplication |
| Service.DedupLast | app/ingestion/service.py:163-167 | each surviving pair is the last resolved pair with its key |
| Service.DedupLastStep | app/ingestion/service.py:163-167 | one assignment keeps every surviving pair the last of its key |
| Service.LastAfterAssign | app/ingestion/service.py:163-167 | the same, for one surviving pair |
| Service.DedupKeepsLast | app/ingestion/service.py:162-167 | "last record wins": keys are distinct, none is lost, and each survivor is the last resolved pair with its key |
| Service.Dedup | app/ingestion/service.py:162-167 | defines the de-duplicated list: the dict keyed by `(coin_id, timestamp)` with assignment order kept |
| Service.PriceRowOf | app/ingestion/service.py:175-187 | a value row carries the coin id, the timestamp and the record's symbol |
| Service.Values | app/ingestion/service.py:175-187 | one value row per de-duplicated pair, in order |
| Service.ValuesKeysUnique | app/ingestion/service.py:162-187 | the upserted rows have distinct `(coin_id, timestamp)` keys, hence distinct index keys, so the statement never affects a row twice |
| Service.TruncatedFits | app/ingestion/service.py:365-369 | a stored error message is kept up to 990 characters and otherwise cut to 990 plus "...", so it fits VARCHAR(1000) |
| Service.Truncated | app/ingestion/service.py:365-369 | defines the stored error text: the first 990 characters and "..." beyond 990 |
| Service.UpdateJob | app/ingestion/service.py:346-371 | `_update_job_status` rewrites only the job with that id: status, records, completion time, checkpoint and truncated error; nothing else changes |
| Service.UpdateJobConsistent | app/ingestion/service.py:346-371 | updating a job keeps the database consistent and the job's values within their columns |
| Service.Latest | app/ingestion/service.py:63-80 | the checkpoint query picks a successful job of the source completed no earlier than any other, with NULL completion times first, and none exactly when there is no such job |
| Service.TargetOf | app/ingestion/service.py:193-194 | the service as written names a conflict target with no matching index; the corrected one names the index's target |
| Service.LatestIgnores | app/ingestion/service.py:72-77 | the query depends only on the rows it selects |
| Service.FailedRunsKeepCheckpoint | app/ingestion/service.py:72-77 | failed jobs, written or rewritten, never change the checkpoint |
| Service.OtherSourcesKeepCheckpoint | app/ingestion/service.py:72-77 | another source's job never changes the checkpoint |
| Service.UnselectedKeepsCheckpoint | app/ingestion/service.py:72-77 | a job the query does not select never changes the checkpoint |
| Service.NewestDecidesCheckpoint | app/ingestion/service.py:72-80 | a successful job completed after all others of its source decides the checkpoint, NULL included |
| Service.ResolveRecord | app/ingestion/service.py:141-157 | one iteration keeps the resolved pairs, or appends the record with its truthy coin id |
| Service.ResolveAll | app/ingestion/service.py:139-157 | the loop resolves no more pairs than records, each a record with a truthy coin id, and fails only on a database error or a non-text source id |
| Service.ResolveAllFailsOnward | app/ingestion/service.py:139-157 | the first failing record ends the loop |
| Service.CreateMappingFrame | app/ingestion/asset_resolver.py:255-284 | `_create_mapping` writes only the mapping table |
| Service.CreateCoinFrame | app/ingestion/asset_resolver.py:220-253 | creating a coin writes no prices, raw rows or jobs, and takes the next coin id |
| Service.LookupFrame | app/ingestion/asset_resolver.py:86-136 | a lookup writes no prices, raw rows or jobs, and a coin id it draws is the one it returns |
| Service.ResolveAssetFrame | app/ingestion/asset_resolver.py:53-136 | `resolve_asset` writes no prices, raw rows or jobs, returns any coin id it draws, and never drops a cached key |
| Service.ResolveAllFrame | app/ingestion/service.py:139-157 | the loop writes no prices, raw rows or jobs, and a coin id it draws stays in the cache |
| Service.ResolveRecordKeeps | app/ingestion/service.py:141-157 | one iteration keeps the resolver invariant and every coin, and every pair names an existing coin |
| Service.ResolveAllKeeps | app/ingestion/service.py:139-157 | the loop keeps the resolver invariant and every coin, and every pair names an existing coin |
| Service.Upserted | app/ingestion/service.py:117-204 | no records give 0 and change nothing; the count is at most the records; a failure is never an extraction failure |
| Service.UpsertedFrame | app/ingestion/service.py:117-204 | the load writes no raw rows or jobs, and a coin id it draws stays in the cache even when it then fails; with a target no index matches it writes no price row and reports nothing processed |
| Service.UpsertedKeeps | app/ingestion/service.py:117-204 | under the resolver invariant a resolution failure is the load's failure and no resolved record gives 0; once records resolve, the code's target fails with the no-index error, and the index's target returns the number of distinct `(coin_id, timestamp)` keys or fails on the symbol constraint; the invariant holds afterwards |
| Service.UpsertResolved | app/ingestion/service.py:162-204 | the upsert of the de-duplicated resolved records: under a target no index matches it fails with the no-index error; under the index's target it either succeeds, leaving the tables consistent, or collides on `(symbol, source, timestamp)` |
| Service.ExtractorFor | app/ingestion/service.py:37-41 | `EXTRACTORS` gives every source its own extractor class, and only that one |
| Service.Normalized | app/ingestion/service.py:264 | each extractor's candidates are no more than the raw items, carry its source and a clean symbol |
| Service.Extract | app/ingestion/service.py:264 | `extract` fails exactly when the fetch fails, and otherwise returns the fetched items and their normalisation |
| Service.ExtractData | app/ingestion/service.py:263-264 | dispatch to the extractor class computes the model's `Extract` |
| Service.MaxTimestamp | app/ingestion/service.py:306 | `max(r.timestamp ...)` is one of the records' timestamps and no record is later |
| Service.Fail | app/ingestion/service.py:321-344 | a failed run re-raises only an ExtractionException, stores the error text on the job, and raises "ETL failed for" the source otherwise; the corrected service drops the caches |
| Service.RunRecordsJob | app/ingestion/service.py:239-344 | a run appends exactly one job with the next id, keeps the earlier jobs, and the job records how the run ended; a failed run leaves coins, mappings, prices and raw rows as they were |
| Service.RunFor | app/ingestion/service.py:239-344 | defines `run_etl_for_source`: the job, the checkpoint, the extraction, then the empty success, the load and success, or the failure |
| Service.LoadedRecordsJob | app/ingestion/service.py:266-344 | after extraction the RUNNING job is rewritten with the outcome and a failure leaves no data behind |
| Service.RunReports | app/ingestion/service.py:239-344 | a failed extraction re-raises or wraps its message; no candidates is a success with 0 records and no checkpoint; otherwise a success has the latest candidate timestamp as checkpoint and at most one record per candidate, and a failure is a DatabaseException |
| Service.RunMovesCheckpoint | app/ingestion/service.py:266-314 | after a run the checkpoint is the run's own when it succeeded (and, corrected, set one), and otherwise is unchanged |
| Service.EmptyRunResetsCheckpoint | app/ingestion/service.py:266-270 | as written, a success without candidates stores a NULL checkpoint that the next run reads, so it reloads everything |
| Service.CorrectedKeepsCheckpoint | app/ingestion/service.py:63-80 | corrected, a success without candidates keeps the checkpoint, and a checkpoint once set is never lost |
| Service.StartKeepsInvariant | app/ingestion/service.py:249-251 | creating the job and saving raw rows keep the resolver invariant |
| Service.FailKeepsInvariant | app/ingestion/service.py:321-344 | corrected, a failure keeps the resolver invariant |
| Service.LoadedKeepsInvariant | app/ingestion/service.py:266-344 | the load keeps the invariant when it succeeds, or always when corrected |
| Service.RunKeepsInvariant | app/ingestion/service.py:239-344 | a run keeps the resolver invariant when it succeeds, or always when corrected |
| Service.StaleCacheAfterRollback | app/ingestion/service.py:321-344 | as written, a failed run that drew a coin id leaves a cached key naming a coin the rollback removed |
| Service.StaleIdFailsNextUpsert | app/ingestion/service.py:146-204 | such a key then answers from the cache, and an upsert of its coin id under a target an index matches fails on the coin foreign key |
| Service.AsWrittenStoresNoPrices | app/ingestion/service.py:189-204 | as written no run changes the price table, and a run that completes has processed no record |
| Service.Targets | app/ingestion/service.py:383 | `sources or list(DataSource)`: the given sources, or every source when none or an empty list is given |
| Service.RunAll | app/ingestion/service.py:398-404 | the sequential mode runs one result per target, in order |
| Service.RunAllStep | app/ingestion/service.py:399-404 | each target's run starts from the caches and tables the previous one left |
| Service.LastCompletedOf | app/ingestion/service.py:399-404 | finds the last successful run of a source, and none exactly when every run of it failed |
| Service.CollectedLastCompleted | app/ingestion/service.py:398-406 | the result dict holds a source exactly when one of its runs succeeded, with the last such job |
| Service.Collected | app/ingestion/service.py:398-406 | defines the `results` dict of the sequential mode: each source to the job of its last run that did not raise |
| Service.FoldsStep | app/ingestion/service.py:399-404 | one more run adds its job when it succeeded, bumps its counter and sets its duration |
| Service.RunAllKeepsInvariant | app/ingestion/service.py:373-406 | corrected, a whole batch keeps the resolver invariant |
| Service.AddRawsStep | app/ingestion/service.py:107-112 | one more payload adds one raw row |
| Service.RawRowsStep | app/ingestion/service.py:107-112 | the raw rows of a longer prefix are those of the shorter prefix plus one |
| Service.Bumped | app/ingestion/service.py:272-340 | `increment_etl_run` raises the `(source, status)` counter by one from zero or its value |
| Service.Runs | app/ingestion/service.py:398-404 | the number of runs of a source with a status is at most the number of targets |
| Service.CountedAllCounts | app/ingestion/service.py:398-404 | after a batch each `(source, status)` counter grew by the number of such runs |
| Service.EtlService.constructor | app/ingestion/service.py:43-52 | a new service has no extractors and a fresh resolver with empty caches |
| Service.EtlService.GetExtractor | app/ingestion/service.py:54-61 | `get_extractor` returns the source's class and registers it |
| Service.EtlService.GetLastProcessedTimestamp | app/ingestion/service.py:63-80 | the checkpoint is the model's `ReadCheckpoint`, and when set is the checkpoint of a successful job of that source |
| Service.EtlService.CreateEtlJob | app/ingestion/service.py:82-95 | the session gains the RUNNING job `AddJob` states |
| Service.EtlService.SaveRawData | app/ingestion/service.py:97-115 | the loop stores the raw rows `AddRaws` states |
| Service.EtlService.ResolveAndUpsert | app/ingestion/service.py:117-205 | the method's result, caches and tables are those of `Upserted` |
| Service.EtlService.UpdateJobStatus | app/ingestion/service.py:346-371 | the session is rewritten as `UpdateJob` states |
| Service.EtlService.RecordRun | app/ingestion/service.py:272-273 | the run counter is bumped and the duration set; HTTP counters are unchanged |
| Service.EtlService.RecordFailure | app/ingestion/service.py:321-344 | the result, caches and tables are those of `Fail`, and the failure is counted |
| Service.EtlService.LoadExtracted | app/ingestion/service.py:266-319 | the result, caches and tables are those of `Loaded`, and the run is counted |
| Service.EtlService.RunEtlForSource | app/ingestion/service.py:239-344 | the result, caches and tables are those of `RunFor`; the extractor is registered and the run counted under its status with its duration |
| Service.EtlService.RunAllSources | app/ingestion/service.py:373-406 | the results, caches, tables and counters are those of the sequential batch over `sources or list(DataSource)`, keeping each source's last successful job |

## Left out

- The parallel mode of `run_all_sources` (`asyncio.gather`, app/ingestion/service.py:386-397) is concurrency. Only the sequential branch is modelled.
- The HTTP API routes, the scheduler, application bootstrap, session factory, migrations and logging (request-logging middleware, structured logger) are not part of this model. They are I/O around the core.
- HTTP clients, timeouts and `asyncio.sleep` are outside the model. A response is the value of a scripted `respond(attempt)` function, and a sleep is a delay in milliseconds returned beside the result. Resetting the lazily created HTTP client is not modelled.
- `difflib.SequenceMatcher` similarity, float parsing and `datetime` parsing are parameters (`Lib`, the similarity function): they are library code, so the model states properties relative to them. The null counts pandas computes arrive as data (`Drift.Column.nulls`).
- The Prometheus `:.3f` formatting of durations and the `perf_counter` timings are parameters (`fixed3`, `elapsed`): floating-point rendering and clocks.
- Exception and log messages that the source renders from floats, sets or exception objects are parameters (`say`, `describe`) rather than exact texts.
- `ingested_at` is one instant per batch rather than a fresh `now()` per row, because clock reads are parameters. In the same way, each `DriftDetector` check stamps all its results with one `now` given to the call, where the source calls `datetime.now(timezone.utc)` once per result (app/ingestion/drift.py:93, 108, 122, 164, 211). The summary's `latest_drift` is therefore the instant of the last call that produced a result.
- The schema-drift result computed inside `run_etl_for_source` (app/ingestion/service.py:276-287) is ignored by the source. The model leaves that call out of the run and models drift detection on its own in `Drift`.
- `_update_job_status` uses `scalar_one`, which raises when the job is missing. The model reaches it only with a job the same run created, so the missing-job error is not modelled.
- Ties in the checkpoint query's order (two success jobs with the same `completed_at`) are resolved by the model's job order; the database leaves them unspecified.
- `upper` and `lower` are ASCII-only, because Unicode case mapping is outside the model.
- Text.IsAlnum: ASCII letters and digits only, where Python's `isalnum` also accepts other Unicode letters and digits. `Resolution.GenerateSlug` (app/ingestion/asset_resolver.py:316) therefore drops accented and non-Latin letters that the source keeps in a slug.
- The CSV dialect sniffing (`csv.Sniffer`) and file reading are outside the model. The file is given as a `CsvFile` value: a header and rows, or the error that opening or parsing it raised.
- A failed coin insert uses up an id from the database sequence. The model does not bump its id counter on failure, because ids are only compared for equality.
- `Service.RunError.NotText`: the source reads `source_id` as text. A non-text id in a candidate becomes an error in the model, not a database type coercion.
- Database.Upsert: models the schema the migrations build, which production uses (the application does not call `create_all`, app/main.py:22). Its unique indexes on prices are `uq_crypto_symbol_source_timestamp` (alembic/versions/001_initial_schema.py:61, never dropped, and enforced by the model) and the partial `ix_uq_coin_source_timestamp` (alembic/versions/003_fix_unique_constraint.py:50-57). The class-level constraints that `create_all` would build instead (app/db/models.py:290-292, including `(symbol, timestamp)`) are not modelled. The partial index's `WHERE coin_id IS NOT NULL` clause is modelled as a key that never matches a row without a coin. The service's own target `(coin_id, timestamp)` matches neither index, so as written the statement fails (see Findings).
- Drift.DriftDetector.constructor: accepts any `fuzzy_match_threshold`. The source passes it as the `cutoff` of `difflib.get_close_matches` (app/ingestion/drift.py:73-74), which raises ValueError for a cutoff outside [0.0, 1.0]. So `check_schema` with such a threshold and at least one missing expected column raises in the source. The model (`Fuzzy.CloseMatch` with that cutoff) instead reports a missing column for a cutoff above 1, and a rename for a negative cutoff whenever some column is present. That error path is not modelled.
- Schemas.CoerceToFloat: the model's numbers are reals, so the texts `float()` accepts as NaN or infinity (`"nan"`, `"inf"`, `"infinity"`, with sign and any case) give None, where the source gets a float and stores it. JSON `NaN`, `Infinity` and `-Infinity` literals, which Python's decoder accepts, are not values of `Json.Value`, so an API body holding them is not modelled.
- Drift.SchemaFinding: keeps the exact similarity ratio in `similarity_score`, where the source stores `round(confidence, 3)` (app/ingestion/drift.py:91); rounding floats is outside the model.
- Drift.QualityFinding: keeps the exact null ratio in `null_ratio`, where the source stores `round(null_ratio, 4)` (app/ingestion/drift.py:159).
- Drift.DriftDetector.CheckSchema: the missing and extra columns come from Python sets (app/ingestion/drift.py:69-71, 113-119), whose iteration order is the hash order. The model lists them in first-occurrence order (expected order for missing, frame order for extra), so the order of the findings, and of `available_columns` and `extra_columns`, is the model's choice; which findings exist is not affected.
- CsvExtractor.Zip: a row with more cells than the header keeps only the header's cells. `csv.DictReader` puts the surplus under the key None (its `restkey`); the model drops it, and only the raw payload would ever have held it.
- The history summary of a drift detector with no history omits the `latest_drift` key. The model reports that as `latest == None`.
- Resolution.ResolveBySymbolKeepsBacking: states only that the caches stay backed by the tables, not that the mapping cache agrees with the mapping table. `_ensure_mapping_exists` (app/ingestion/asset_resolver.py:286-307) caches `coin.id` even when the table already maps `(source, symbol)` to another coin.
- Resolution.AssetResolver.ResolveBySymbol: the same weaker invariant as `Resolution.ResolveBySymbolKeepsBacking`, for the same reason.
- The exception class hierarchy is reduced to the `Extraction.Failure` kinds. For example, an `APIException` that the generic handler wraps becomes a `DatabaseException`-like failure with the message nested, so only the kinds and messages the service inspects are kept.

## Findings

| source | as written | input that shows it | evidently intended | confidence | as-written member | corrected member |
|---|---|---|---|---|---|---|
| app/ingestion/service.py:266-270 with 72-80 | A run whose fetch yields no candidates is booked as a success with checkpoint NULL. The checkpoint query takes the latest success even when its checkpoint is NULL, so the next run reloads everything. | A source with a stored checkpoint whose next incremental fetch returns no new items | The checkpoint is kept: the query skips success jobs without a checkpoint, or the empty run stores the previous checkpoint | not executed | Service.EmptyRunResetsCheckpoint | Service.CorrectedKeepsCheckpoint |
| app/ingestion/service.py:321-344 with app/ingestion/asset_resolver.py:134-135 | The rollback after a failed batch discards the new coins, but the resolver's caches keep their ids. The next batch resolves to a coin that no longer exists, and its upsert fails on the foreign key. | A batch whose first record creates a new coin and whose later record fails; as written every batch that resolves a record already fails at its upsert (the next row), and with that target corrected a new symbol with a 101-character name fails at its coin insert (`coins.name` is `String(100)`); the batch rolls back, then a second batch with the first symbol | The caches are cleared (or rolled back) with the session, so they stay backed by the tables | not executed | Service.StaleCacheAfterRollback, Service.StaleIdFailsNextUpsert | Service.RunKeepsInvariant, Service.RunAllKeepsInvariant |
| app/ingestion/service.py:189-204 with alembic/versions/003_fix_unique_constraint.py:31-57 | The upsert names `ON CONFLICT (coin_id, timestamp)`, but after migration 003 the price table's only unique indexes are `(symbol, source, timestamp)` and the partial `(coin_id, source, timestamp) WHERE coin_id IS NOT NULL`. PostgreSQL finds no arbiter index for the target and refuses the statement, so every load that resolves a record fails and rolls back. | Any run whose fetch yields at least one record the resolver maps to a coin | The target names the index: `index_elements=["coin_id", "source", "timestamp"]` with `index_where` on `coin_id IS NOT NULL` | not executed | Service.AsWrittenStoresNoPrices | Service.UpsertedKeeps, Database.UpsertWritesRows |
