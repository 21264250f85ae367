/**
 * The persistent entities of the pipeline (app/db/models.py) and the candidate
 * record the extractors produce (UnifiedCryptoDataCreate), with the column
 * bounds and the uniqueness constraints the schema declares.
 *
 * Every datetime the pipeline stores is timezone-aware; an `Instant` is a count
 * of microseconds since the Unix epoch in UTC.
 */
module Models {
  import opened Wrappers
  import opened Json

  type Instant = int

  /** The three data sources: a closed set of values. */
  datatype DataSource = CoinPaprika | CoinGecko | Csv

  /** The string each source is stored and reported as. */
  function SourceValue(s: DataSource): (v: string)
    ensures v != []
  {
    match s
    case CoinPaprika => "coinpaprika"
    case CoinGecko => "coingecko"
    case Csv => "csv"
  }

  /** `DataSource(v)`: the member with that value, if there is one. */
  function SourceFromValue(v: string): (r: Option<DataSource>)
  {
    if v == "coinpaprika" then Some(CoinPaprika)
    else if v == "coingecko" then Some(CoinGecko)
    else if v == "csv" then Some(Csv)
    else None
  }

  /** The stored value identifies the source and every stored value comes from one. */
  lemma SourceValueRoundTrip(s: DataSource, v: string)
    ensures SourceFromValue(SourceValue(s)) == Some(s)
    ensures SourceFromValue(v) == Some(s) <==> v == SourceValue(s)
  {
  }

  /** `list(DataSource)`: every source once, in declaration order. */
  const AllSources: seq<DataSource> := [CoinPaprika, CoinGecko, Csv]

  lemma AllSourcesComplete()
    ensures forall s: DataSource :: s in AllSources
    ensures forall i, j :: 0 <= i < j < |AllSources| ==> AllSources[i] != AllSources[j]
  {
    forall s: DataSource ensures s in AllSources {
      match s
      case CoinPaprika => assert AllSources[0] == s;
      case CoinGecko => assert AllSources[1] == s;
      case Csv => assert AllSources[2] == s;
    }
  }

  /** A run record's status: a closed set of values. */
  datatype EtlStatus = Success | Failure | Running

  function StatusValue(s: EtlStatus): (v: string)
    ensures v != []
  {
    match s
    case Success => "success"
    case Failure => "failure"
    case Running => "running"
  }

  function StatusFromValue(v: string): (r: Option<EtlStatus>)
  {
    if v == "success" then Some(Success)
    else if v == "failure" then Some(Failure)
    else if v == "running" then Some(Running)
    else None
  }

  lemma StatusValueRoundTrip(s: EtlStatus, v: string)
    ensures StatusFromValue(StatusValue(s)) == Some(s)
    ensures StatusFromValue(v) == Some(s) <==> v == StatusValue(s)
  {
  }

  /** Column widths (VARCHAR(n)); the database refuses a longer value. */
  const SymbolWidth: nat := 20
  const NameWidth: nat := 100
  const SlugWidth: nat := 100
  const SourceIdWidth: nat := 100
  const ErrorMessageWidth: nat := 1000

  /** A canonical asset. */
  datatype Coin = Coin(id: nat, symbol: string, name: string, slug: string)

  /** Links a source's own identifier for an asset to the canonical coin. */
  datatype Mapping = Mapping(
    coinId: nat,
    source: DataSource,
    sourceId: string,
    sourceSymbol: string,
    sourceName: Option<string>)

  /** An audit copy of one raw payload. */
  datatype RawRow = RawRow(source: DataSource, payload: Value, createdAt: Instant)

  /** One stored price observation. `coinId` is nullable in the schema. */
  datatype PriceRow = PriceRow(
    coinId: Option<nat>,
    symbol: string,
    priceUsd: Option<real>,
    marketCap: Option<real>,
    volume24h: Option<real>,
    source: DataSource,
    ingestedAt: Instant,
    timestamp: Instant)

  /** One run record; `lastProcessed` is the checkpoint it leaves for the next incremental run. */
  datatype EtlJob = EtlJob(
    id: nat,
    source: DataSource,
    status: EtlStatus,
    lastProcessed: Option<Instant>,
    recordsProcessed: nat,
    startedAt: Instant,
    completedAt: Option<Instant>,
    errorMessage: Option<string>)

  /**
   * A normalised observation as an extractor hands it to the service. The schema's
   * optional `coin_id` is left out: no extractor sets it.
   */
  datatype Candidate = Candidate(
    sourceId: Option<string>,
    name: Option<string>,
    symbol: string,
    priceUsd: Option<real>,
    marketCap: Option<real>,
    volume24h: Option<real>,
    source: DataSource,
    timestamp: Instant)

  /** `UnifiedCryptoDataCreate(...)`: refuses a symbol longer than 20 characters. */
  function MakeCandidate(
    sourceId: Option<string>, name: Option<string>, symbol: string,
    priceUsd: Option<real>, marketCap: Option<real>, volume24h: Option<real>,
    source: DataSource, timestamp: Instant): (r: Option<Candidate>)
    ensures r.Some? <==> |symbol| <= SymbolWidth
    ensures r.Some? ==> r.value.symbol == symbol && r.value.source == source && r.value.timestamp == timestamp
  {
    if |symbol| <= SymbolWidth then
      Some(Candidate(sourceId, name, symbol, priceUsd, marketCap, volume24h, source, timestamp))
    else None
  }

  // ---- The schema's constraints, as predicates on table contents ----

  predicate CoinIdsUnique(coins: seq<Coin>) {
    forall i, j :: 0 <= i < j < |coins| ==> coins[i].id != coins[j].id
  }

  /** `coins.slug` is UNIQUE. */
  predicate SlugsUnique(coins: seq<Coin>) {
    forall i, j :: 0 <= i < j < |coins| ==> coins[i].slug != coins[j].slug
  }

  predicate HasCoin(coins: seq<Coin>, id: nat) {
    exists i :: 0 <= i < |coins| && coins[i].id == id
  }

  /**
   * At most one coin per symbol. The schema only indexes `coins.symbol`; the
   * resolver keeps it unique by creating a coin only when no coin has the symbol.
   */
  predicate SymbolsUnique(coins: seq<Coin>) {
    forall i, j :: 0 <= i < j < |coins| ==> coins[i].symbol != coins[j].symbol
  }

  /** `uq_source_asset_mapping`: one mapping per (source, source_id). */
  predicate MappingKeysUnique(mappings: seq<Mapping>) {
    forall i, j :: 0 <= i < j < |mappings| ==>
      (mappings[i].source, mappings[i].sourceId) != (mappings[j].source, mappings[j].sourceId)
  }

  /** The foreign key `source_asset_mappings.coin_id -> coins.id`. */
  predicate MappingsReferToCoins(mappings: seq<Mapping>, coins: seq<Coin>) {
    forall i :: 0 <= i < |mappings| ==> HasCoin(coins, mappings[i].coinId)
  }

  /** The foreign key `unified_crypto_data.coin_id -> coins.id` (NULL is allowed). */
  predicate PricesReferToCoins(prices: seq<PriceRow>, coins: seq<Coin>) {
    forall i :: 0 <= i < |prices| ==> prices[i].coinId.Some? ==> HasCoin(coins, prices[i].coinId.value)
  }

  /**
   * Two rows with the same key of the unique index on `(coin_id, source, timestamp)`:
   * `ix_uq_coin_source_timestamp ... WHERE coin_id IS NOT NULL` in the migrated schema,
   * `uq_coin_source_timestamp` in the one the models declare. A NULL coin id never collides.
   */
  predicate SameIndexKey(a: PriceRow, b: PriceRow) {
    a.coinId.Some? && a.coinId == b.coinId && a.source == b.source && a.timestamp == b.timestamp
  }

  /** No two rows share a `(coin_id, source, timestamp)` with a non-NULL coin id. */
  predicate IndexKeysUnique(prices: seq<PriceRow>) {
    forall i, j :: 0 <= i < j < |prices| ==> !SameIndexKey(prices[i], prices[j])
  }

  /** Two rows with the same `(coin_id, timestamp)`: the key the service de-duplicates on. */
  predicate SameCoinTimestamp(a: PriceRow, b: PriceRow) {
    a.coinId.Some? && a.coinId == b.coinId && a.timestamp == b.timestamp
  }

  predicate CoinTimestampsUnique(prices: seq<PriceRow>) {
    forall i, j :: 0 <= i < j < |prices| ==> !SameCoinTimestamp(prices[i], prices[j])
  }

  /**
   * `uq_crypto_symbol_source_timestamp`: the first migration makes `(symbol, source,
   * timestamp)` unique and no later one drops it.
   */
  predicate SymbolKeysUnique(prices: seq<PriceRow>) {
    forall i, j :: 0 <= i < j < |prices| ==>
      (prices[i].symbol, prices[i].source, prices[i].timestamp) != (prices[j].symbol, prices[j].source, prices[j].timestamp)
  }

  /** Rows with distinct `(coin_id, timestamp)` never collide on the `(coin_id, source, timestamp)` index. */
  lemma CoinTimestampsGiveIndexKeys(prices: seq<PriceRow>)
    requires CoinTimestampsUnique(prices)
    ensures IndexKeysUnique(prices)
  {
    forall i, j | 0 <= i < j < |prices| ensures !SameIndexKey(prices[i], prices[j]) {
      assert !SameCoinTimestamp(prices[i], prices[j]);
    }
  }

  /** `error_message` fits its VARCHAR(1000) column. */
  predicate JobFits(j: EtlJob) {
    j.errorMessage.Some? ==> |j.errorMessage.value| <= ErrorMessageWidth
  }
}
