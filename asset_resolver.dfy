/**
 * `AssetResolver` (app/ingestion/asset_resolver.py): maps a source's own identifier
 * for an asset to a canonical coin id, through a cache keyed by `(source, source_id)`,
 * the mapping table, the coin with the same normalised symbol, or a new coin with
 * its mapping. `Caches` and the functions returning an `Outcome` state what each
 * operation does to the two caches and the tables; the class `AssetResolver` runs
 * the operations in place and is proved to do exactly that.
 */
module Resolution {
  import opened Wrappers
  import opened Models
  import opened Database
  import Store
  import Text

  /** `_mapping_cache`, `_symbol_cache` and `_cache_loaded`. */
  datatype Caches = Caches(
    mappingCache: map<(DataSource, string), nat>,
    symbolCache: map<string, nat>,
    loaded: bool)

  const NoCaches: Caches := Caches(map[], map[], false)

  /** What an operation returns and leaves behind. */
  datatype Outcome<T> = Outcome(result: Result<T, DbError>, caches: Caches, tables: Tables)

  /** `s.upper().strip()`. */
  function NormalizedSymbol(s: string): (r: string)
    ensures Text.IsUpperCase(r)
    ensures |r| <= |s|
  {
    Text.UpperStripCommute(s);
    Text.UpperProperties(Text.Strip(s));
    Text.Strip(Text.Upper(s))
  }

  // ---- Slugs ----

  /** The characters of `s` that `isalnum()` accepts or that are '-', in order. */
  function SlugChars(s: string): (r: string)
    ensures |r| <= |s|
    ensures forall i :: 0 <= i < |r| ==> Text.IsAlnum(r[i]) || r[i] == '-'
    decreases |s|
  {
    if s == [] then []
    else if Text.IsAlnum(s[0]) || s[0] == '-' then [s[0]] + SlugChars(s[1..])
    else SlugChars(s[1..])
  }

  /** `"".join(c for c in name.lower() if c.isalnum() or c == "-")[:20]`. */
  function NamePart(name: string): (r: string)
    ensures |r| <= 20
    ensures forall i :: 0 <= i < |r| ==> (Text.IsAlnum(r[i]) && !('A' <= r[i] <= 'Z')) || r[i] == '-'
  {
    var kept := SlugChars(Text.Lower(name));
    SlugCharsFromLower(Text.Lower(name));
    if |kept| <= 20 then kept else kept[..20]
  }

  lemma {:induction false} SlugCharsFromLower(s: string)
    requires Text.IsLowerCase(s)
    ensures Text.IsLowerCase(SlugChars(s))
    decreases |s|
  {
    if s != [] {
      SlugCharsFromLower(s[1..]);
      var t := SlugChars(s[1..]);
      if Text.IsAlnum(s[0]) || s[0] == '-' {
        assert SlugChars(s) == [s[0]] + t;
        assert forall i :: 1 <= i < |SlugChars(s)| ==> SlugChars(s)[i] == t[i - 1];
      }
    }
  }

  /** `_generate_slug(symbol, name)`. */
  function GenerateSlug(symbol: string, name: string): (r: string)
  {
    var base := Text.Strip(Text.Lower(symbol));
    if name != [] && Text.Upper(name) != symbol then base + "-" + NamePart(name) else base
  }

  /**
   * The slug is the stripped, lower-cased symbol; when the name is non-empty and is
   * not the symbol up to case, it is followed by '-' and at most 20 lower-case letters,
   * digits or dashes from the name.
   */
  lemma SlugShape(symbol: string, name: string)
    ensures var base := Text.Strip(Text.Lower(symbol));
            var slug := GenerateSlug(symbol, name);
            if name == [] || Text.Upper(name) == symbol then slug == base
            else
              |slug| > |base| && slug[..|base| + 1] == base + "-" &&
              |slug| <= |base| + 21 &&
              forall i :: |base| < i < |slug| ==>
                (Text.IsAlnum(slug[i]) && !('A' <= slug[i] <= 'Z')) || slug[i] == '-'
    ensures |GenerateSlug(symbol, name)| <= |symbol| + 21
  {
    var base := Text.Strip(Text.Lower(symbol));
    var slug := GenerateSlug(symbol, name);
    assert |base| <= |symbol|;
    if !(name == [] || Text.Upper(name) == symbol) {
      var part := NamePart(name);
      assert slug == base + "-" + part;
      assert slug[..|base| + 1] == base + "-";
      forall i | |base| < i < |slug|
        ensures (Text.IsAlnum(slug[i]) && !('A' <= slug[i] <= 'Z')) || slug[i] == '-'
      {
        assert slug[i] == part[i - |base| - 1];
      }
    }
  }

  // ---- Table writes ----

  /** `_create_mapping`: nothing when `(source, source_id)` is already mapped, else one new row. */
  function CreateMapping(t: Tables, coinId: nat, source: DataSource, sourceId: string,
                         sourceSymbol: string, sourceName: Option<string>): (r: Result<Tables, DbError>)
    ensures MappingOf(t.mappings, source, sourceId).Some? ==> r == Ok(t)
    ensures MappingOf(t.mappings, source, sourceId).None? ==>
              r == AddMapping(t, Mapping(coinId, source, sourceId, sourceSymbol, sourceName))
    ensures r.Ok? ==> MappingOf(r.value.mappings, source, sourceId).Some?
  {
    if MappingOf(t.mappings, source, sourceId).Some? then Ok(t)
    else
      var m := Mapping(coinId, source, sourceId, sourceSymbol, sourceName);
      var r := AddMapping(t, m);
      assert r.Ok? ==> r.value.mappings[|t.mappings|] == m;
      r
  }

  /** Creating the same mapping again changes nothing. */
  lemma CreateMappingIdempotent(t: Tables, coinId: nat, source: DataSource, sourceId: string,
                                sourceSymbol: string, sourceName: Option<string>)
    requires CreateMapping(t, coinId, source, sourceId, sourceSymbol, sourceName).Ok?
    ensures var t' := CreateMapping(t, coinId, source, sourceId, sourceSymbol, sourceName).value;
            CreateMapping(t', coinId, source, sourceId, sourceSymbol, sourceName) == Ok(t')
  {
  }

  /** `_create_coin_with_mapping`: a coin with its slug, then its mapping carrying `name`. */
  function CreateCoinWithMapping(t: Tables, symbol: string, name: string, source: DataSource,
                                 sourceId: string, sourceSymbol: string): (r: Result<(Tables, nat), DbError>)
  {
    match AddCoin(t, symbol, name, GenerateSlug(symbol, name))
    case Err(e) => Err(e)
    case Ok((t1, id)) =>
      match CreateMapping(t1, id, source, sourceId, sourceSymbol, Some(name))
      case Err(e) => Err(e)
      case Ok(t2) => Ok((t2, id))
  }

  /** On an unmapped key, one coin with the next id and one mapping to it are added. */
  lemma CreateCoinWithMappingAdds(t: Tables, symbol: string, name: string, source: DataSource,
                                  sourceId: string, sourceSymbol: string)
    requires MappingOf(t.mappings, source, sourceId).None?
    requires CreateCoinWithMapping(t, symbol, name, source, sourceId, sourceSymbol).Ok?
    ensures var (t', id) := CreateCoinWithMapping(t, symbol, name, source, sourceId, sourceSymbol).value;
            id == t.nextCoinId &&
            t'.coins == t.coins + [Coin(id, symbol, name, GenerateSlug(symbol, name))] &&
            t'.mappings == t.mappings + [Mapping(id, source, sourceId, sourceSymbol, Some(name))] &&
            t'.prices == t.prices && t'.raws == t.raws && t'.jobs == t.jobs
  {
  }

  /** A new coin and its mapping keep the tables consistent; the coin is appended with the next id. */
  lemma CreateCoinWithMappingKeeps(t: Tables, symbol: string, name: string, source: DataSource,
                                   sourceId: string, sourceSymbol: string)
    requires Consistent(t)
    requires CreateCoinWithMapping(t, symbol, name, source, sourceId, sourceSymbol).Ok?
    ensures var (t', id) := CreateCoinWithMapping(t, symbol, name, source, sourceId, sourceSymbol).value;
            id == t.nextCoinId && Consistent(t') &&
            t'.coins == t.coins + [Coin(id, symbol, name, GenerateSlug(symbol, name))]
  {
    var slug := GenerateSlug(symbol, name);
    var (t1, id) := AddCoin(t, symbol, name, slug).value;
    AddCoinConsistent(t, symbol, name, slug);
    var m := Mapping(id, source, sourceId, sourceSymbol, Some(name));
    if MappingOf(t1.mappings, source, sourceId).None? {
      AddMappingConsistent(t1, m);
    }
  }

  // ---- The operations, on values ----

  /** `source_name or normalized_symbol`: a missing or empty name falls back to the symbol. */
  function NameOr(sourceName: Option<string>, fallback: string): (r: string)
    ensures sourceName.Some? && sourceName.value != [] ==> r == sourceName.value
    ensures sourceName.None? || sourceName.value == [] ==> r == fallback
  {
    if sourceName.Some? && sourceName.value != [] then sourceName.value else fallback
  }

  /** The caches after an operation has learnt `id` for `key` and for the symbol `s`. */
  function Learn(c: Caches, key: (DataSource, string), s: string, id: nat): (r: Caches)
    ensures key in r.mappingCache && r.mappingCache[key] == id
    ensures s in r.symbolCache && r.symbolCache[s] == id
    ensures r.loaded == c.loaded
  {
    c.(mappingCache := c.mappingCache[key := id], symbolCache := c.symbolCache[s := id])
  }

  /** What a sequence of statements in the session answers and leaves in the tables. */
  datatype Written<T> = Written(result: Result<T, DbError>, tables: Tables)

  /**
   * Steps 2 to 4 of `resolve_asset`, which read and write only the tables: the existing
   * mapping; else the coin with the normalised symbol, given a mapping; else a new coin
   * with its mapping. A failed statement leaves the tables as they were before it, where
   * the session would still hold the rows flushed earlier in the same call; the service
   * rolls the whole session back after any failure, so nothing reads that difference.
   */
  function LookupOrCreate(t: Tables, source: DataSource, sourceId: string,
                          sourceSymbol: string, sourceName: Option<string>): (w: Written<nat>)
    // 2. an existing mapping answers and nothing is written
    ensures MappingOf(t.mappings, source, sourceId).Some? ==>
              w == Written(Ok(MappingOf(t.mappings, source, sourceId).value.coinId), t)
    // a failed statement leaves the tables as the run found them
    ensures w.result.Err? ==> w.tables == t
  {
    var symbol := NormalizedSymbol(sourceSymbol);
    match MappingOf(t.mappings, source, sourceId)
    case Some(m) => Written(Ok(m.coinId), t)
    case None =>
      match CoinBySymbol(t.coins, symbol)
      case Err(e) => Written(Err(e), t)
      case Ok(Some(coin)) =>
        (match CreateMapping(t, coin.id, source, sourceId, sourceSymbol, sourceName)
         case Err(e) => Written(Err(e), t)
         case Ok(t') => Written(Ok(coin.id), t'))
      case Ok(None) =>
        match CreateCoinWithMapping(t, symbol, NameOr(sourceName, symbol), source, sourceId, sourceSymbol)
        case Err(e) => Written(Err(e), t)
        case Ok((t', id)) => Written(Ok(id), t')
  }

  /** 3. With no mapping, the coin with the symbol gets one more mapping and no coin is created. */
  lemma LookupLinksExistingCoin(t: Tables, source: DataSource, sourceId: string,
                                sourceSymbol: string, sourceName: Option<string>)
    requires MappingOf(t.mappings, source, sourceId).None?
    requires CoinBySymbol(t.coins, NormalizedSymbol(sourceSymbol)).Ok?
    requires CoinBySymbol(t.coins, NormalizedSymbol(sourceSymbol)).value.Some?
    requires LookupOrCreate(t, source, sourceId, sourceSymbol, sourceName).result.Ok?
    ensures var w := LookupOrCreate(t, source, sourceId, sourceSymbol, sourceName);
            var coin := CoinBySymbol(t.coins, NormalizedSymbol(sourceSymbol)).value.value;
            w.result == Ok(coin.id) &&
            w.tables == t.(mappings := t.mappings + [Mapping(coin.id, source, sourceId, sourceSymbol, sourceName)])
  {
  }

  /** 4. With no mapping and no such coin, a new coin with the next id is created with its mapping. */
  lemma LookupCreatesCoin(t: Tables, source: DataSource, sourceId: string,
                          sourceSymbol: string, sourceName: Option<string>)
    requires MappingOf(t.mappings, source, sourceId).None?
    requires CoinBySymbol(t.coins, NormalizedSymbol(sourceSymbol)) == Ok(None)
    requires LookupOrCreate(t, source, sourceId, sourceSymbol, sourceName).result.Ok?
    ensures var w := LookupOrCreate(t, source, sourceId, sourceSymbol, sourceName);
            var symbol := NormalizedSymbol(sourceSymbol);
            var name := NameOr(sourceName, symbol);
            w.result == Ok(t.nextCoinId) &&
            w.tables.coins == t.coins + [Coin(t.nextCoinId, symbol, name, GenerateSlug(symbol, name))] &&
            w.tables.mappings == t.mappings + [Mapping(t.nextCoinId, source, sourceId, sourceSymbol, Some(name))] &&
            w.tables.prices == t.prices && w.tables.raws == t.raws && w.tables.jobs == t.jobs
  {
    var symbol := NormalizedSymbol(sourceSymbol);
    CreateCoinWithMappingAdds(t, symbol, NameOr(sourceName, symbol), source, sourceId, sourceSymbol);
  }

  /**
   * `resolve_asset(session, source, source_id, source_symbol, source_name)`: 1. a cached
   * key answers at once; otherwise steps 2 to 4, and an answer is cached under the key
   * and under the normalised symbol.
   */
  function ResolveAssetStep(c: Caches, t: Tables, source: DataSource, sourceId: string,
                            sourceSymbol: string, sourceName: Option<string>): (o: Outcome<nat>)
    ensures (source, sourceId) in c.mappingCache ==> o == Outcome(Ok(c.mappingCache[(source, sourceId)]), c, t)
    ensures o.result.Err? ==> o.caches == c && o.tables == t
    ensures o.result.Ok? ==> (source, sourceId) in o.caches.mappingCache &&
                             o.caches.mappingCache[(source, sourceId)] == o.result.value &&
                             o.caches.loaded == c.loaded
  {
    var key := (source, sourceId);
    if key in c.mappingCache then Outcome(Ok(c.mappingCache[key]), c, t)
    else
      var w := LookupOrCreate(t, source, sourceId, sourceSymbol, sourceName);
      match w.result
      case Err(e) => Outcome(Err(e), c, t)
      case Ok(id) => Outcome(Ok(id), Learn(c, key, NormalizedSymbol(sourceSymbol), id), w.tables)
  }

  /** `_ensure_mapping_exists`: nothing for a cached key, else `_create_mapping` and cache it. */
  function EnsureMappingStep(c: Caches, t: Tables, coinId: nat, source: DataSource,
                             sourceId: string, sourceSymbol: string): (o: Outcome<()>)
    ensures (source, sourceId) in c.mappingCache ==> o == Outcome(Ok(()), c, t)
    ensures o.result.Err? ==> o.caches == c && o.tables == t
    ensures o.result.Ok? ==> o.caches == c.(mappingCache := o.caches.mappingCache) &&
                             (source, sourceId) in o.caches.mappingCache
  {
    var key := (source, sourceId);
    if key in c.mappingCache then Outcome(Ok(()), c, t)
    else match CreateMapping(t, coinId, source, sourceId, sourceSymbol, None)
      case Err(e) => Outcome(Err(e), c, t)
      case Ok(t') => Outcome(Ok(()), c.(mappingCache := c.mappingCache[key := coinId]), t')
  }

  /** `_create_coin_with_mapping` for a symbol alone: the symbol is also the name, the id and the source's symbol. */
  function NewCoinForSymbol(t: Tables, s: string, source: DataSource): (w: Written<nat>)
    ensures w.result.Err? ==> w.tables == t
  {
    match CreateCoinWithMapping(t, s, s, source, s, s)
    case Err(e) => Written(Err(e), t)
    case Ok(r) => Written(Ok(r.1), r.0)
  }

  /** `resolve_by_symbol(session, symbol, source)`: the symbol doubles as the source's id. */
  function ResolveBySymbolStep(c: Caches, t: Tables, symbol: string, source: DataSource): (o: Outcome<nat>)
    ensures NormalizedSymbol(symbol) in c.symbolCache ==> o == Outcome(Ok(c.symbolCache[NormalizedSymbol(symbol)]), c, t)
    ensures o.result.Err? ==> o.tables == t && o.caches.mappingCache == c.mappingCache
    ensures o.result.Ok? ==> NormalizedSymbol(symbol) in o.caches.symbolCache &&
                             o.caches.symbolCache[NormalizedSymbol(symbol)] == o.result.value
    ensures o.caches.loaded == c.loaded
  {
    var s := NormalizedSymbol(symbol);
    if s in c.symbolCache then Outcome(Ok(c.symbolCache[s]), c, t)
    else match CoinBySymbol(t.coins, s)
      case Err(e) => Outcome(Err(e), c, t)
      case Ok(Some(coin)) =>
        // the symbol is cached before the mapping is ensured, so a failure there keeps it
        var c1 := c.(symbolCache := c.symbolCache[s := coin.id]);
        var e := EnsureMappingStep(c1, t, coin.id, source, s, s);
        Outcome(if e.result.Ok? then Ok(coin.id) else Err(e.result.error), e.caches, e.tables)
      case Ok(None) =>
        var w := NewCoinForSymbol(t, s, source);
        if w.result.Err? then Outcome(Err(w.result.error), c, t)
        else Outcome(Ok(w.result.value), c.(symbolCache := c.symbolCache[s := w.result.value]), w.tables)
  }

  /** `get_coin_id_by_symbol(session, symbol)`: never writes a table; caches a non-zero id it finds. */
  function CoinIdBySymbolStep(c: Caches, t: Tables, symbol: string): (o: Outcome<Option<nat>>)
    ensures o.tables == t
    ensures o.caches.mappingCache == c.mappingCache && o.caches.loaded == c.loaded
  {
    var s := NormalizedSymbol(symbol);
    if s in c.symbolCache then Outcome(Ok(Some(c.symbolCache[s])), c, t)
    else match CoinBySymbol(t.coins, s)
      case Err(e) => Outcome(Err(e), c, t)
      case Ok(None) => Outcome(Ok(None), c, t)
      case Ok(Some(coin)) =>
        Outcome(Ok(Some(coin.id)), if coin.id != 0 then c.(symbolCache := c.symbolCache[s := coin.id]) else c, t)
  }

  /** The mapping cache entries of `mappings`, a later row overwriting an earlier one. */
  function MappingEntries(mappings: seq<Mapping>): (m: map<(DataSource, string), nat>)
    ensures forall k :: k in m <==> exists i :: 0 <= i < |mappings| && (mappings[i].source, mappings[i].sourceId) == k
    decreases |mappings|
  {
    if mappings == [] then map[]
    else
      var last := mappings[|mappings| - 1];
      var init := mappings[..|mappings| - 1];
      assert forall i :: 0 <= i < |init| ==> init[i] == mappings[i];
      MappingEntries(init)[(last.source, last.sourceId) := last.coinId]
  }

  /** The symbol cache entries of `coins`, a later coin overwriting an earlier one. */
  function SymbolEntries(coins: seq<Coin>): (m: map<string, nat>)
    ensures forall s :: s in m <==> exists i :: 0 <= i < |coins| && coins[i].symbol == s
    decreases |coins|
  {
    if coins == [] then map[]
    else
      var last := coins[|coins| - 1];
      var init := coins[..|coins| - 1];
      assert forall i :: 0 <= i < |init| ==> init[i] == coins[i];
      SymbolEntries(init)[last.symbol := last.id]
  }

  /** `preload_cache`: nothing once loaded; else every mapping and every coin's symbol, then loaded. */
  function PreloadStep(c: Caches, t: Tables): (r: Caches)
  {
    if c.loaded then c
    else Caches(c.mappingCache + MappingEntries(t.mappings), c.symbolCache + SymbolEntries(t.coins), true)
  }

  // ---- Invariants ----

  /** Every cached id is the id of a coin in the tables. */
  predicate CacheBacked(c: Caches, t: Tables) {
    (forall k :: k in c.mappingCache ==> HasCoin(t.coins, c.mappingCache[k])) &&
    (forall s :: s in c.symbolCache ==> HasCoin(t.coins, c.symbolCache[s]))
  }

  /** Every cached `(source, source_id)` is mapped in the table, to the cached coin. */
  predicate MappingCacheAgrees(c: Caches, t: Tables) {
    forall k :: k in c.mappingCache ==>
      MappingOf(t.mappings, k.0, k.1).Some? && MappingOf(t.mappings, k.0, k.1).value.coinId == c.mappingCache[k]
  }

  /** What the resolver keeps true of the database and its caches. */
  predicate ResolverInvariant(c: Caches, t: Tables) {
    Consistent(t) && SymbolsUnique(t.coins) && CacheBacked(c, t) && MappingCacheAgrees(c, t)
  }

  /** The empty caches are backed by any tables and agree with any mapping table. */
  lemma NoCachesKeepInvariant(t: Tables)
    requires Consistent(t) && SymbolsUnique(t.coins)
    ensures ResolverInvariant(NoCaches, t)
  {
  }

  // ---- Frame facts the invariant proofs share ----

  /** Caching one more id for a key and a symbol keeps the caches backed, when that id is a coin's. */
  lemma CacheBackedAfterLearning(c: Caches, t: Tables, t': Tables, key: (DataSource, string), s: string, id: nat)
    requires CacheBacked(c, t)
    requires forall x :: HasCoin(t.coins, x) ==> HasCoin(t'.coins, x)
    requires HasCoin(t'.coins, id)
    ensures CacheBacked(c.(mappingCache := c.mappingCache[key := id], symbolCache := c.symbolCache[s := id]), t')
  {
  }

  /** Caching the key of a mapping just appended keeps the mapping cache in agreement with the table. */
  lemma AgreesAfterAppend(c: Caches, t: Tables, t': Tables, m: Mapping)
    requires MappingCacheAgrees(c, t)
    requires MappingOf(t.mappings, m.source, m.sourceId).None?
    requires t'.mappings == t.mappings + [m]
    ensures MappingCacheAgrees(c.(mappingCache := c.mappingCache[(m.source, m.sourceId) := m.coinId]), t')
  {
    var c' := c.(mappingCache := c.mappingCache[(m.source, m.sourceId) := m.coinId]);
    forall k | k in c'.mappingCache
      ensures MappingOf(t'.mappings, k.0, k.1).Some? && MappingOf(t'.mappings, k.0, k.1).value.coinId == c'.mappingCache[k]
    {
      MappingOfAppend(t.mappings, m, k.0, k.1);
    }
  }

  /** A coin appended with a symbol no coin has keeps symbols unique. */
  lemma SymbolsUniqueAfterAppend(coins: seq<Coin>, coin: Coin)
    requires SymbolsUnique(coins)
    requires forall x :: x in coins ==> x.symbol != coin.symbol
    ensures SymbolsUnique(coins + [coin])
  {
    var r := coins + [coin];
    forall i, j | 0 <= i < j < |r| ensures r[i].symbol != r[j].symbol {
      assert r[i] == coins[i];
      if j < |coins| { assert r[j] == coins[j]; }
    }
  }

  // ---- What `resolve_asset` keeps and promises ----

  /** Steps 2 to 4 keep the tables consistent and one coin per symbol; an answer is a coin mapped from the key. */
  lemma LookupKeepsTables(t: Tables, source: DataSource, sourceId: string,
                          sourceSymbol: string, sourceName: Option<string>)
    requires Consistent(t) && SymbolsUnique(t.coins)
    ensures var w := LookupOrCreate(t, source, sourceId, sourceSymbol, sourceName);
            Consistent(w.tables) && SymbolsUnique(w.tables.coins) &&
            (forall x :: HasCoin(t.coins, x) ==> HasCoin(w.tables.coins, x)) &&
            (forall src, sid :: MappingOf(t.mappings, src, sid).Some? ==>
                                  MappingOf(w.tables.mappings, src, sid) == MappingOf(t.mappings, src, sid)) &&
            (w.result.Ok? ==>
              HasCoin(w.tables.coins, w.result.value) &&
              MappingOf(w.tables.mappings, source, sourceId).Some? &&
              MappingOf(w.tables.mappings, source, sourceId).value.coinId == w.result.value)
  {
    var w := LookupOrCreate(t, source, sourceId, sourceSymbol, sourceName);
    var symbol := NormalizedSymbol(sourceSymbol);
    if MappingOf(t.mappings, source, sourceId).Some? {
      var m := MappingOf(t.mappings, source, sourceId).value;
      var i :| 0 <= i < |t.mappings| && t.mappings[i] == m;
    } else if w.result.Ok? && CoinBySymbol(t.coins, symbol).value.Some? {
      LookupLinkKeeps(t, source, sourceId, sourceSymbol, sourceName);
    } else if w.result.Ok? {
      LookupCreateKeeps(t, source, sourceId, sourceSymbol, sourceName);
    }
  }

  /** Step 3 keeps the tables: the found coin gets one more mapping. */
  lemma LookupLinkKeeps(t: Tables, source: DataSource, sourceId: string,
                        sourceSymbol: string, sourceName: Option<string>)
    requires Consistent(t) && SymbolsUnique(t.coins)
    requires MappingOf(t.mappings, source, sourceId).None?
    requires CoinBySymbol(t.coins, NormalizedSymbol(sourceSymbol)).Ok?
    requires CoinBySymbol(t.coins, NormalizedSymbol(sourceSymbol)).value.Some?
    requires LookupOrCreate(t, source, sourceId, sourceSymbol, sourceName).result.Ok?
    ensures var w := LookupOrCreate(t, source, sourceId, sourceSymbol, sourceName);
            Consistent(w.tables) && SymbolsUnique(w.tables.coins) &&
            (forall x :: HasCoin(t.coins, x) ==> HasCoin(w.tables.coins, x)) &&
            (forall src, sid :: MappingOf(t.mappings, src, sid).Some? ==>
                                  MappingOf(w.tables.mappings, src, sid) == MappingOf(t.mappings, src, sid)) &&
            (w.result.Ok? ==>
              HasCoin(w.tables.coins, w.result.value) &&
              MappingOf(w.tables.mappings, source, sourceId).Some? &&
              MappingOf(w.tables.mappings, source, sourceId).value.coinId == w.result.value)
  {
    var w := LookupOrCreate(t, source, sourceId, sourceSymbol, sourceName);
    var coin := CoinBySymbol(t.coins, NormalizedSymbol(sourceSymbol)).value.value;
    var m := Mapping(coin.id, source, sourceId, sourceSymbol, sourceName);
    LookupLinksExistingCoin(t, source, sourceId, sourceSymbol, sourceName);
    assert w.tables == t.(mappings := t.mappings + [m]);
    AddMappingConsistent(t, m);
    var i :| 0 <= i < |t.coins| && t.coins[i] == coin;
    forall src, sid | MappingOf(t.mappings, src, sid).Some?
      ensures MappingOf(w.tables.mappings, src, sid) == MappingOf(t.mappings, src, sid)
    {
      MappingOfAppend(t.mappings, m, src, sid);
    }
    MappingOfAppend(t.mappings, m, source, sourceId);
  }

  /** Step 4 keeps the tables: a coin with the next id and its mapping are appended. */
  lemma LookupCreateKeeps(t: Tables, source: DataSource, sourceId: string,
                          sourceSymbol: string, sourceName: Option<string>)
    requires Consistent(t) && SymbolsUnique(t.coins)
    requires MappingOf(t.mappings, source, sourceId).None?
    requires CoinBySymbol(t.coins, NormalizedSymbol(sourceSymbol)) == Ok(None)
    requires LookupOrCreate(t, source, sourceId, sourceSymbol, sourceName).result.Ok?
    ensures var w := LookupOrCreate(t, source, sourceId, sourceSymbol, sourceName);
            Consistent(w.tables) && SymbolsUnique(w.tables.coins) &&
            (forall x :: HasCoin(t.coins, x) ==> HasCoin(w.tables.coins, x)) &&
            (forall src, sid :: MappingOf(t.mappings, src, sid).Some? ==>
                                  MappingOf(w.tables.mappings, src, sid) == MappingOf(t.mappings, src, sid)) &&
            (w.result.Ok? ==>
              HasCoin(w.tables.coins, w.result.value) &&
              MappingOf(w.tables.mappings, source, sourceId).Some? &&
              MappingOf(w.tables.mappings, source, sourceId).value.coinId == w.result.value)
  {
    var w := LookupOrCreate(t, source, sourceId, sourceSymbol, sourceName);
    var symbol := NormalizedSymbol(sourceSymbol);
    var name := NameOr(sourceName, symbol);
    var id := t.nextCoinId;
    var coin := Coin(id, symbol, name, GenerateSlug(symbol, name));
    var m := Mapping(id, source, sourceId, sourceSymbol, Some(name));
    LookupCreatesCoin(t, source, sourceId, sourceSymbol, sourceName);
    CreateCoinWithMappingKeeps(t, symbol, name, source, sourceId, sourceSymbol);
    SymbolsUniqueAfterAppend(t.coins, coin);
    forall x | HasCoin(t.coins, x) ensures HasCoin(w.tables.coins, x) {
      HasCoinAppend(t.coins, coin, x);
    }
    HasCoinAppend(t.coins, coin, id);
    forall src, sid | MappingOf(t.mappings, src, sid).Some?
      ensures MappingOf(w.tables.mappings, src, sid) == MappingOf(t.mappings, src, sid)
    {
      MappingOfAppend(t.mappings, m, src, sid);
    }
    MappingOfAppend(t.mappings, m, source, sourceId);
  }

  /**
   * `resolve_asset` keeps the invariant; an id it returns is a coin's and the source's key
   * is then mapped to that coin in the table (as it is in the cache).
   */
  lemma ResolveAssetKeepsInvariant(c: Caches, t: Tables, source: DataSource, sourceId: string,
                                   sourceSymbol: string, sourceName: Option<string>)
    requires ResolverInvariant(c, t)
    ensures var o := ResolveAssetStep(c, t, source, sourceId, sourceSymbol, sourceName);
            ResolverInvariant(o.caches, o.tables) &&
            (o.result.Ok? ==>
              HasCoin(o.tables.coins, o.result.value) &&
              MappingOf(o.tables.mappings, source, sourceId).Some? &&
              MappingOf(o.tables.mappings, source, sourceId).value.coinId == o.result.value)
  {
    var o := ResolveAssetStep(c, t, source, sourceId, sourceSymbol, sourceName);
    var key := (source, sourceId);
    if key !in c.mappingCache && o.result.Ok? {
      var w := LookupOrCreate(t, source, sourceId, sourceSymbol, sourceName);
      LookupKeepsTables(t, source, sourceId, sourceSymbol, sourceName);
      assert o == Outcome(w.result, Learn(c, key, NormalizedSymbol(sourceSymbol), w.result.value), w.tables);
      CacheBackedAfterLearning(c, t, w.tables, key, NormalizedSymbol(sourceSymbol), w.result.value);
      forall k | k in o.caches.mappingCache
        ensures MappingOf(o.tables.mappings, k.0, k.1).Some? &&
                MappingOf(o.tables.mappings, k.0, k.1).value.coinId == o.caches.mappingCache[k]
      {
        if k != key {
          assert MappingOf(t.mappings, k.0, k.1).Some?;
        }
      }
    }
  }

  /** A second `resolve_asset` of the same key answers the same from the cache and changes nothing. */
  lemma ResolveAssetRepeat(c: Caches, t: Tables, source: DataSource, sourceId: string,
                           sourceSymbol: string, sourceName: Option<string>,
                           sourceSymbol': string, sourceName': Option<string>)
    requires ResolveAssetStep(c, t, source, sourceId, sourceSymbol, sourceName).result.Ok?
    ensures var o := ResolveAssetStep(c, t, source, sourceId, sourceSymbol, sourceName);
            ResolveAssetStep(o.caches, o.tables, source, sourceId, sourceSymbol', sourceName') == o
  {
  }

  /**
   * The cache never changes what `resolve_asset` answers or writes: while it agrees with the
   * mapping table, a resolver with empty caches gives the same id and leaves the same tables.
   */
  lemma CacheIsTransparent(c: Caches, t: Tables, source: DataSource, sourceId: string,
                           sourceSymbol: string, sourceName: Option<string>)
    requires MappingCacheAgrees(c, t)
    ensures var warm := ResolveAssetStep(c, t, source, sourceId, sourceSymbol, sourceName);
            var cold := ResolveAssetStep(NoCaches, t, source, sourceId, sourceSymbol, sourceName);
            warm.result == cold.result && warm.tables == cold.tables
  {
    var key := (source, sourceId);
    if key in c.mappingCache {
      assert MappingOf(t.mappings, source, sourceId).Some?;
    }
  }

  /** Mapping an unmapped key to an existing coin fails only on an over-long value. */
  lemma CreateMappingFailures(t: Tables, coinId: nat, source: DataSource, sourceId: string,
                              sourceSymbol: string, sourceName: Option<string>)
    requires HasCoin(t.coins, coinId)
    ensures var r := CreateMapping(t, coinId, source, sourceId, sourceSymbol, sourceName);
            r.Err? ==> r.error.ValueTooLong?
  {
  }

  /** A new coin and its mapping fail only on an over-long value or a slug already taken. */
  lemma CreateCoinFailures(t: Tables, symbol: string, name: string, source: DataSource,
                           sourceId: string, sourceSymbol: string)
    ensures var r := CreateCoinWithMapping(t, symbol, name, source, sourceId, sourceSymbol);
            r.Err? ==> r.error.ValueTooLong? || r.error == UniqueViolation("coins_slug_key")
  {
    var slug := GenerateSlug(symbol, name);
    var r := AddCoin(t, symbol, name, slug);
    if r.Ok? {
      var (t1, id) := r.value;
      HasCoinAppend(t.coins, Coin(id, symbol, name, slug), id);
      CreateMappingFailures(t1, id, source, sourceId, sourceSymbol, Some(name));
    }
  }

  /**
   * With one coin per symbol, `resolve_asset` fails only on data the columns refuse: an
   * over-long value, or a new coin whose slug another coin already has. The symbol query
   * never finds two coins and a mapping is never inserted twice or for a missing coin.
   */
  lemma LookupFailures(t: Tables, source: DataSource, sourceId: string,
                       sourceSymbol: string, sourceName: Option<string>)
    requires SymbolsUnique(t.coins)
    ensures var w := LookupOrCreate(t, source, sourceId, sourceSymbol, sourceName);
            w.result.Err? ==> w.result.error.ValueTooLong? || w.result.error == UniqueViolation("coins_slug_key")
  {
    var w := LookupOrCreate(t, source, sourceId, sourceSymbol, sourceName);
    var symbol := NormalizedSymbol(sourceSymbol);
    if MappingOf(t.mappings, source, sourceId).None? {
      SymbolQueryNeverAmbiguous(t.coins, symbol);
      assert CoinBySymbol(t.coins, symbol).Ok?;
      if CoinBySymbol(t.coins, symbol).value.Some? {
        var coin := CoinBySymbol(t.coins, symbol).value.value;
        var i :| 0 <= i < |t.coins| && t.coins[i] == coin;
        var r := CreateMapping(t, coin.id, source, sourceId, sourceSymbol, sourceName);
        assert w.result == (if r.Ok? then Ok(coin.id) else Err(r.error));
        CreateMappingFailures(t, coin.id, source, sourceId, sourceSymbol, sourceName);
      } else {
        var cr := CreateCoinWithMapping(t, symbol, NameOr(sourceName, symbol), source, sourceId, sourceSymbol);
        assert w.result == (if cr.Ok? then Ok(cr.value.1) else Err(cr.error));
        CreateCoinFailures(t, symbol, NameOr(sourceName, symbol), source, sourceId, sourceSymbol);
      }
    }
  }

  /**
   * Resolving a key nobody has mapped leaves exactly one new mapping, for that key, and at
   * most one new coin; the coin found by the normalised symbol is then the answer.
   */
  lemma LookupUnmapped(t: Tables, source: DataSource, sourceId: string,
                       sourceSymbol: string, sourceName: Option<string>)
    requires SymbolsUnique(t.coins)
    requires MappingOf(t.mappings, source, sourceId).None?
    requires LookupOrCreate(t, source, sourceId, sourceSymbol, sourceName).result.Ok?
    ensures var w := LookupOrCreate(t, source, sourceId, sourceSymbol, sourceName);
            var found := CoinBySymbol(w.tables.coins, NormalizedSymbol(sourceSymbol));
            found.Ok? && found.value.Some? && found.value.value.id == w.result.value &&
            |w.tables.coins| <= |t.coins| + 1 &&
            |w.tables.mappings| == |t.mappings| + 1 &&
            w.tables.mappings == t.mappings + [w.tables.mappings[|t.mappings|]] &&
            w.tables.mappings[|t.mappings|].source == source && w.tables.mappings[|t.mappings|].sourceId == sourceId
  {
    var w := LookupOrCreate(t, source, sourceId, sourceSymbol, sourceName);
    var symbol := NormalizedSymbol(sourceSymbol);
    SymbolQueryNeverAmbiguous(t.coins, symbol);
    assert CoinBySymbol(t.coins, symbol).Ok?;
    if CoinBySymbol(t.coins, symbol).value.Some? {
      LookupLinksExistingCoin(t, source, sourceId, sourceSymbol, sourceName);
    } else {
      LookupCreatesCoin(t, source, sourceId, sourceSymbol, sourceName);
      var name := NameOr(sourceName, symbol);
      var coin := Coin(t.nextCoinId, symbol, name, GenerateSlug(symbol, name));
      CoinsWithSymbolAppend(t.coins, coin, symbol);
      assert CoinsWithSymbol(w.tables.coins, symbol) == [coin];
    }
  }

  /**
   * Cross-source matching: two different unmapped keys whose symbols normalise alike (say
   * `coingecko:bitcoin` as "btc" and `coinpaprika:btc-bitcoin` as "BTC") resolve to the
   * same coin, leaving at most one new coin and two new mappings.
   */
  lemma SameSymbolSameCoin(t: Tables,
                           source1: DataSource, sourceId1: string, symbol1: string, name1: Option<string>,
                           source2: DataSource, sourceId2: string, symbol2: string, name2: Option<string>)
    requires SymbolsUnique(t.coins)
    requires (source1, sourceId1) != (source2, sourceId2)
    requires MappingOf(t.mappings, source1, sourceId1).None? && MappingOf(t.mappings, source2, sourceId2).None?
    requires NormalizedSymbol(symbol1) == NormalizedSymbol(symbol2)
    ensures var w1 := LookupOrCreate(t, source1, sourceId1, symbol1, name1);
            var w2 := LookupOrCreate(w1.tables, source2, sourceId2, symbol2, name2);
            w1.result.Ok? && w2.result.Ok? ==>
              w2.result == w1.result &&
              |w2.tables.coins| <= |t.coins| + 1 &&
              |w2.tables.mappings| == |t.mappings| + 2
  {
    var w1 := LookupOrCreate(t, source1, sourceId1, symbol1, name1);
    var w2 := LookupOrCreate(w1.tables, source2, sourceId2, symbol2, name2);
    if w1.result.Ok? && w2.result.Ok? {
      KeyStaysUnmapped(t, source1, sourceId1, symbol1, name1, source2, sourceId2);
      LookupLinksExistingCoin(w1.tables, source2, sourceId2, symbol2, name2);
    }
  }

  /** After one unmapped key is resolved, another unmapped key is still unmapped. */
  lemma KeyStaysUnmapped(t: Tables, source: DataSource, sourceId: string, sourceSymbol: string,
                         sourceName: Option<string>, source2: DataSource, sourceId2: string)
    requires SymbolsUnique(t.coins)
    requires (source, sourceId) != (source2, sourceId2)
    requires MappingOf(t.mappings, source, sourceId).None? && MappingOf(t.mappings, source2, sourceId2).None?
    requires LookupOrCreate(t, source, sourceId, sourceSymbol, sourceName).result.Ok?
    ensures var w := LookupOrCreate(t, source, sourceId, sourceSymbol, sourceName);
            var found := CoinBySymbol(w.tables.coins, NormalizedSymbol(sourceSymbol));
            MappingOf(w.tables.mappings, source2, sourceId2).None? &&
            found.Ok? && found.value.Some? && found.value.value.id == w.result.value &&
            |w.tables.coins| <= |t.coins| + 1 && |w.tables.mappings| == |t.mappings| + 1
  {
    var w := LookupOrCreate(t, source, sourceId, sourceSymbol, sourceName);
    LookupUnmapped(t, source, sourceId, sourceSymbol, sourceName);
    MappingOfAppend(t.mappings, w.tables.mappings[|t.mappings|], source2, sourceId2);
  }

  // ---- `resolve_by_symbol` and `get_coin_id_by_symbol` ----

  /** Ensuring the mapping of a found coin keeps the tables consistent and the caches backed. */
  lemma EnsureMappingKeeps(c: Caches, t: Tables, coin: Coin, s: string, source: DataSource)
    requires Consistent(t) && CacheBacked(c, t)
    requires coin in t.coins
    ensures var e := EnsureMappingStep(c.(symbolCache := c.symbolCache[s := coin.id]), t, coin.id, source, s, s);
            Consistent(e.tables) && e.tables.coins == t.coins && CacheBacked(e.caches, e.tables)
  {
    var c1 := c.(symbolCache := c.symbolCache[s := coin.id]);
    var key := (source, s);
    var e := EnsureMappingStep(c1, t, coin.id, source, s, s);
    var i :| 0 <= i < |t.coins| && t.coins[i] == coin;
    assert HasCoin(t.coins, coin.id);
    CachingKeepsBacked(c, t, s, key, coin.id);
    if key !in c1.mappingCache {
      var m := Mapping(coin.id, source, s, s, None);
      if MappingOf(t.mappings, source, s).None? && AddMapping(t, m).Ok? {
        AddMappingConsistent(t, m);
        assert e.tables == t.(mappings := t.mappings + [m]);
      }
    }
  }

  /** Caching a coin's id under a symbol, and then under a mapping key, keeps the caches backed. */
  lemma CachingKeepsBacked(c: Caches, t: Tables, s: string, key: (DataSource, string), id: nat)
    requires CacheBacked(c, t) && HasCoin(t.coins, id)
    ensures CacheBacked(c.(symbolCache := c.symbolCache[s := id]), t)
    ensures CacheBacked(c.(symbolCache := c.symbolCache[s := id], mappingCache := c.mappingCache[key := id]), t)
    ensures forall t': Tables :: t'.coins == t.coins ==>
              CacheBacked(c.(symbolCache := c.symbolCache[s := id], mappingCache := c.mappingCache[key := id]), t')
  {
  }

  /** A coin created for a symbol no coin has keeps the invariant on the tables and is then found by it. */
  lemma NewCoinForSymbolKeeps(t: Tables, s: string, source: DataSource)
    requires Consistent(t) && SymbolsUnique(t.coins)
    requires forall x :: x in t.coins ==> x.symbol != s
    requires NewCoinForSymbol(t, s, source).result.Ok?
    ensures var w := NewCoinForSymbol(t, s, source);
            Consistent(w.tables) && SymbolsUnique(w.tables.coins) &&
            (forall x :: HasCoin(t.coins, x) ==> HasCoin(w.tables.coins, x)) &&
            CoinBySymbol(w.tables.coins, s).Ok? && CoinBySymbol(w.tables.coins, s).value.Some? &&
            CoinBySymbol(w.tables.coins, s).value.value.id == w.result.value
  {
    var w := NewCoinForSymbol(t, s, source);
    var coin := Coin(t.nextCoinId, s, s, GenerateSlug(s, s));
    CreateCoinWithMappingKeeps(t, s, s, source, s, s);
    assert w.tables.coins == t.coins + [coin] && w.result.value == coin.id;
    SymbolsUniqueAfterAppend(t.coins, coin);
    forall x | HasCoin(t.coins, x) ensures HasCoin(w.tables.coins, x) {
      HasCoinAppend(t.coins, coin, x);
    }
    assert CoinsWithSymbol(t.coins, s) == [];
    CoinsWithSymbolAppend(t.coins, coin, s);
    assert CoinsWithSymbol(w.tables.coins, s) == [coin];
    assert CoinBySymbol(w.tables.coins, s) == Ok(Some(coin));
  }

  /** What `resolve_by_symbol` keeps; it answers a cached symbol, else the coin with the symbol. */
  lemma ResolveBySymbolKeepsBacking(c: Caches, t: Tables, symbol: string, source: DataSource)
    requires Consistent(t) && SymbolsUnique(t.coins) && CacheBacked(c, t)
    ensures var o := ResolveBySymbolStep(c, t, symbol, source);
            var s := NormalizedSymbol(symbol);
            Consistent(o.tables) && SymbolsUnique(o.tables.coins) && CacheBacked(o.caches, o.tables) &&
            (o.result.Ok? ==> HasCoin(o.tables.coins, o.result.value)) &&
            (o.result.Ok? && s !in c.symbolCache ==>
               CoinBySymbol(o.tables.coins, s).Ok? && CoinBySymbol(o.tables.coins, s).value.Some? &&
               CoinBySymbol(o.tables.coins, s).value.value.id == o.result.value)
  {
    var s := NormalizedSymbol(symbol);
    if s !in c.symbolCache {
      SymbolQueryNeverAmbiguous(t.coins, s);
      assert CoinBySymbol(t.coins, s).Ok?;
      if CoinBySymbol(t.coins, s).value.Some? {
        BySymbolFoundKeeps(c, t, symbol, source);
      } else {
        BySymbolCreatedKeeps(c, t, symbol, source);
      }
    }
  }

  /** A coin found by the symbol: the symbol is cached and its mapping ensured. */
  lemma BySymbolFoundKeeps(c: Caches, t: Tables, symbol: string, source: DataSource)
    requires Consistent(t) && SymbolsUnique(t.coins) && CacheBacked(c, t)
    requires NormalizedSymbol(symbol) !in c.symbolCache
    requires CoinBySymbol(t.coins, NormalizedSymbol(symbol)).Ok?
    requires CoinBySymbol(t.coins, NormalizedSymbol(symbol)).value.Some?
    ensures var o := ResolveBySymbolStep(c, t, symbol, source);
            var s := NormalizedSymbol(symbol);
            Consistent(o.tables) && SymbolsUnique(o.tables.coins) && CacheBacked(o.caches, o.tables) &&
            (o.result.Ok? ==> HasCoin(o.tables.coins, o.result.value)) &&
            (o.result.Ok? ==>
               CoinBySymbol(o.tables.coins, s).Ok? && CoinBySymbol(o.tables.coins, s).value.Some? &&
               CoinBySymbol(o.tables.coins, s).value.value.id == o.result.value)
  {
    var o := ResolveBySymbolStep(c, t, symbol, source);
    var s := NormalizedSymbol(symbol);
    var coin := CoinBySymbol(t.coins, s).value.value;
    var e := EnsureMappingStep(c.(symbolCache := c.symbolCache[s := coin.id]), t, coin.id, source, s, s);
    assert o == Outcome(if e.result.Ok? then Ok(coin.id) else Err(e.result.error), e.caches, e.tables);
    EnsureMappingKeeps(c, t, coin, s, source);
    var i :| 0 <= i < |t.coins| && t.coins[i] == coin;
    assert HasCoin(t.coins, coin.id);
  }

  /** No coin with the symbol: a coin is created for it and the symbol cached. */
  lemma BySymbolCreatedKeeps(c: Caches, t: Tables, symbol: string, source: DataSource)
    requires Consistent(t) && SymbolsUnique(t.coins) && CacheBacked(c, t)
    requires NormalizedSymbol(symbol) !in c.symbolCache
    requires CoinBySymbol(t.coins, NormalizedSymbol(symbol)) == Ok(None)
    ensures var o := ResolveBySymbolStep(c, t, symbol, source);
            var s := NormalizedSymbol(symbol);
            Consistent(o.tables) && SymbolsUnique(o.tables.coins) && CacheBacked(o.caches, o.tables) &&
            (o.result.Ok? ==> HasCoin(o.tables.coins, o.result.value)) &&
            (o.result.Ok? ==>
               CoinBySymbol(o.tables.coins, s).Ok? && CoinBySymbol(o.tables.coins, s).value.Some? &&
               CoinBySymbol(o.tables.coins, s).value.value.id == o.result.value)
  {
    var o := ResolveBySymbolStep(c, t, symbol, source);
    var s := NormalizedSymbol(symbol);
    var w := NewCoinForSymbol(t, s, source);
    if w.result.Ok? {
      assert o == Outcome(Ok(w.result.value), c.(symbolCache := c.symbolCache[s := w.result.value]), w.tables);
      NewCoinForSymbolKeeps(t, s, source);
      var coin := CoinBySymbol(w.tables.coins, s).value.value;
      var i :| 0 <= i < |w.tables.coins| && w.tables.coins[i] == coin;
      CacheBackedAfterLearning(c, t, w.tables, (source, s), s, w.result.value);
    } else {
      assert o == Outcome(Err(w.result.error), c, t);
    }
  }

  /**
   * `get_coin_id_by_symbol` keeps the invariant and writes nothing; an id it finds is a coin's,
   * and for a symbol not yet cached it reports None exactly when no coin has the symbol.
   */
  lemma CoinIdBySymbolKeepsInvariant(c: Caches, t: Tables, symbol: string)
    requires ResolverInvariant(c, t)
    ensures var o := CoinIdBySymbolStep(c, t, symbol);
            ResolverInvariant(o.caches, t) && o.result.Ok? &&
            (o.result.value.Some? ==> HasCoin(t.coins, o.result.value.value)) &&
            (NormalizedSymbol(symbol) !in c.symbolCache ==>
               (o.result.value.None? <==> forall x :: x in t.coins ==> x.symbol != NormalizedSymbol(symbol)))
  {
    var o := CoinIdBySymbolStep(c, t, symbol);
    var s := NormalizedSymbol(symbol);
    SymbolQueryNeverAmbiguous(t.coins, s);
    var found := CoinBySymbol(t.coins, s);
    assert found.Ok?;
    if s in c.symbolCache {
      assert o == Outcome(Ok(Some(c.symbolCache[s])), c, t);
    } else if found.value.None? {
      assert o == Outcome(Ok(None), c, t);
    } else {
      var coin := found.value.value;
      var i :| 0 <= i < |t.coins| && t.coins[i] == coin;
      assert HasCoin(t.coins, coin.id);
      if coin.id != 0 {
        assert o == Outcome(Ok(Some(coin.id)), c.(symbolCache := c.symbolCache[s := coin.id]), t);
        SymbolLearnKeeps(c, t, s, coin.id);
      }
    }
  }

  /** Caching a coin's id under a symbol keeps the invariant. */
  lemma SymbolLearnKeeps(c: Caches, t: Tables, s: string, id: nat)
    requires ResolverInvariant(c, t) && HasCoin(t.coins, id)
    ensures ResolverInvariant(c.(symbolCache := c.symbolCache[s := id]), t)
  {
    var c' := c.(symbolCache := c.symbolCache[s := id]);
    assert MappingCacheAgrees(c', t) by { assert c'.mappingCache == c.mappingCache; }
  }

  // ---- `preload_cache` ----

  /** With one row per key, the preloaded mapping cache agrees with the mapping table. */
  lemma MappingEntriesAgree(mappings: seq<Mapping>)
    requires MappingKeysUnique(mappings)
    ensures forall src, sid :: (src, sid) in MappingEntries(mappings) ==>
              MappingOf(mappings, src, sid).Some? &&
              MappingOf(mappings, src, sid).value.coinId == MappingEntries(mappings)[(src, sid)]
  {
    forall src, sid | (src, sid) in MappingEntries(mappings)
      ensures MappingOf(mappings, src, sid).Some? &&
              MappingOf(mappings, src, sid).value.coinId == MappingEntries(mappings)[(src, sid)]
    {
      MappingEntryAgrees(mappings, src, sid);
    }
  }

  lemma {:induction false} MappingEntryAgrees(mappings: seq<Mapping>, src: DataSource, sid: string)
    requires MappingKeysUnique(mappings)
    requires (src, sid) in MappingEntries(mappings)
    ensures MappingOf(mappings, src, sid).Some? &&
            MappingOf(mappings, src, sid).value.coinId == MappingEntries(mappings)[(src, sid)]
    decreases |mappings|
  {
    var n := |mappings| - 1;
    var last := mappings[n];
    var init := mappings[..n];
    assert mappings == init + [last];
    assert MappingEntries(mappings) == MappingEntries(init)[(last.source, last.sourceId) := last.coinId];
    MappingOfAppend(init, last, src, sid);
    if (src, sid) == (last.source, last.sourceId) {
      assert MappingOf(init, src, sid).None? by {
        forall i | 0 <= i < |init| ensures (init[i].source, init[i].sourceId) != (src, sid) {
          assert init[i] == mappings[i];
        }
      }
    } else {
      assert MappingKeysUnique(init) by {
        forall i, j | 0 <= i < j < |init|
          ensures (init[i].source, init[i].sourceId) != (init[j].source, init[j].sourceId)
        {
          assert init[i] == mappings[i] && init[j] == mappings[j];
        }
      }
      MappingEntryAgrees(init, src, sid);
    }
  }

  /** Every preloaded id is the coin id of some row. */
  lemma {:induction false} MappingEntriesFromRows(mappings: seq<Mapping>)
    ensures forall k :: k in MappingEntries(mappings) ==>
              exists i :: 0 <= i < |mappings| && mappings[i].coinId == MappingEntries(mappings)[k]
    decreases |mappings|
  {
    if mappings != [] {
      var init := mappings[..|mappings| - 1];
      MappingEntriesFromRows(init);
      forall k | k in MappingEntries(mappings)
        ensures exists i :: 0 <= i < |mappings| && mappings[i].coinId == MappingEntries(mappings)[k]
      {
        if k != (mappings[|mappings| - 1].source, mappings[|mappings| - 1].sourceId) {
          var i :| 0 <= i < |init| && init[i].coinId == MappingEntries(init)[k];
          assert mappings[i] == init[i];
        } else {
          assert mappings[|mappings| - 1].coinId == MappingEntries(mappings)[k];
        }
      }
    }
  }

  /** Every preloaded symbol names a coin, and its id is that coin's. */
  lemma {:induction false} SymbolEntriesFromCoins(coins: seq<Coin>)
    ensures forall s :: s in SymbolEntries(coins) ==> HasCoin(coins, SymbolEntries(coins)[s])
    decreases |coins|
  {
    if coins != [] {
      var init := coins[..|coins| - 1];
      SymbolEntriesFromCoins(init);
      forall s | s in SymbolEntries(coins) ensures HasCoin(coins, SymbolEntries(coins)[s]) {
        if s != coins[|coins| - 1].symbol {
          var i :| 0 <= i < |init| && init[i].id == SymbolEntries(init)[s];
          assert coins[i] == init[i];
        } else {
          assert coins[|coins| - 1].id == SymbolEntries(coins)[s];
        }
      }
    }
  }

  /**
   * `preload_cache` keeps the invariant; a first preload caches every mapped key and every
   * coin's symbol, and once loaded it changes nothing.
   */
  lemma PreloadKeepsInvariant(c: Caches, t: Tables)
    requires ResolverInvariant(c, t)
    ensures var p := PreloadStep(c, t);
            ResolverInvariant(p, t) && p.loaded &&
            (c.loaded ==> p == c) &&
            (!c.loaded ==> (forall i :: 0 <= i < |t.mappings| ==> (t.mappings[i].source, t.mappings[i].sourceId) in p.mappingCache) &&
                           (forall i :: 0 <= i < |t.coins| ==> t.coins[i].symbol in p.symbolCache))
  {
    if !c.loaded {
      PreloadCovers(c, t);
      PreloadBacked(c, t);
      PreloadAgrees(c, t);
    }
  }

  /** A first preload caches every mapped key and every coin's symbol. */
  lemma PreloadCovers(c: Caches, t: Tables)
    ensures var p := Caches(c.mappingCache + MappingEntries(t.mappings), c.symbolCache + SymbolEntries(t.coins), true);
            (forall i :: 0 <= i < |t.mappings| ==> (t.mappings[i].source, t.mappings[i].sourceId) in p.mappingCache) &&
            (forall i :: 0 <= i < |t.coins| ==> t.coins[i].symbol in p.symbolCache)
  {
    var entries := MappingEntries(t.mappings);
    forall i | 0 <= i < |t.mappings| ensures (t.mappings[i].source, t.mappings[i].sourceId) in entries {
    }
    var symbols := SymbolEntries(t.coins);
    forall i | 0 <= i < |t.coins| ensures t.coins[i].symbol in symbols {
    }
  }

  /** The preloaded mapping cache agrees with the mapping table. */
  lemma PreloadAgrees(c: Caches, t: Tables)
    requires ResolverInvariant(c, t)
    ensures MappingCacheAgrees(Caches(c.mappingCache + MappingEntries(t.mappings), c.symbolCache + SymbolEntries(t.coins), true), t)
  {
    var entries := MappingEntries(t.mappings);
    var merged := c.mappingCache + entries;
    MappingEntriesAgree(t.mappings);
    forall k | k in merged
      ensures MappingOf(t.mappings, k.0, k.1).Some? && MappingOf(t.mappings, k.0, k.1).value.coinId == merged[k]
    {
      if k in entries {
        assert (k.0, k.1) in entries;
      }
    }
  }

  /** The preloaded ids are all coins' ids. */
  lemma PreloadBacked(c: Caches, t: Tables)
    requires ResolverInvariant(c, t)
    ensures CacheBacked(Caches(c.mappingCache + MappingEntries(t.mappings), c.symbolCache + SymbolEntries(t.coins), true), t)
  {
    var entries := MappingEntries(t.mappings);
    MappingEntriesFromRows(t.mappings);
    SymbolEntriesFromCoins(t.coins);
    forall k | k in entries ensures HasCoin(t.coins, entries[k]) {
      var i :| 0 <= i < |t.mappings| && t.mappings[i].coinId == entries[k];
    }
  }

  // ---- The resolver object ----

  /** One step of the preload loops: the entries of a longer prefix. */
  lemma MappingEntriesStep(mappings: seq<Mapping>, i: nat)
    requires i < |mappings|
    ensures MappingEntries(mappings[..i + 1]) ==
            MappingEntries(mappings[..i])[(mappings[i].source, mappings[i].sourceId) := mappings[i].coinId]
  {
    assert mappings[..i + 1][..i] == mappings[..i];
  }

  lemma SymbolEntriesStep(coins: seq<Coin>, i: nat)
    requires i < |coins|
    ensures SymbolEntries(coins[..i + 1]) == SymbolEntries(coins[..i])[coins[i].symbol := coins[i].id]
  {
    assert coins[..i + 1][..i] == coins[..i];
  }

  /** Assigning into a union is assigning into its right-hand side. */
  lemma UnionUpdate<K, V>(a: map<K, V>, b: map<K, V>, k: K, v: V)
    ensures (a + b)[k := v] == a + b[k := v]
  {
  }

  /**
   * `AssetResolver`: the two caches and the loaded flag, updated in place. Each method does
   * to the fields and to the session's tables what the corresponding step function states.
   */
  class AssetResolver {
    var mappingCache: map<(DataSource, string), nat>
    var symbolCache: map<string, nat>
    var cacheLoaded: bool

    /** The fields as a value. */
    function State(): (c: Caches)
      reads this
    {
      Caches(mappingCache, symbolCache, cacheLoaded)
    }

    constructor ()
      ensures State() == NoCaches
    {
      mappingCache := map[];
      symbolCache := map[];
      cacheLoaded := false;
    }

    /** `resolve_asset`. */
    method ResolveAsset(db: Store.Session, source: DataSource, sourceId: string,
                        sourceSymbol: string, sourceName: Option<string>) returns (r: Result<nat, DbError>)
      modifies this, db
      ensures Outcome(r, State(), db.tables) == ResolveAssetStep(old(State()), old(db.tables), source, sourceId, sourceSymbol, sourceName)
    {
      var key := (source, sourceId);
      if key in mappingCache {
        return Ok(mappingCache[key]);
      }
      ghost var c0 := State();
      ghost var w := LookupOrCreate(db.tables, source, sourceId, sourceSymbol, sourceName);
      ghost var o := ResolveAssetStep(c0, db.tables, source, sourceId, sourceSymbol, sourceName);
      var normalized := NormalizedSymbol(sourceSymbol);
      assert o == if w.result.Ok? then Outcome(w.result, Learn(c0, key, normalized, w.result.value), w.tables)
                  else Outcome(w.result, c0, w.tables);
      r := LookupOrCreateIn(db, source, sourceId, sourceSymbol, sourceName);
      if r.Ok? {
        mappingCache := mappingCache[key := r.value];
        symbolCache := symbolCache[normalized := r.value];
      }
      assert State() == o.caches;
    }

    /** Steps 2 to 4 of `resolve_asset`, on the session alone. */
    method LookupOrCreateIn(db: Store.Session, source: DataSource, sourceId: string,
                            sourceSymbol: string, sourceName: Option<string>) returns (r: Result<nat, DbError>)
      modifies db
      ensures Written(r, db.tables) == LookupOrCreate(old(db.tables), source, sourceId, sourceSymbol, sourceName)
    {
      ghost var w := LookupOrCreate(db.tables, source, sourceId, sourceSymbol, sourceName);
      var normalized := NormalizedSymbol(sourceSymbol);
      var existing := MappingOf(db.tables.mappings, source, sourceId);
      if existing.Some? {
        return Ok(existing.value.coinId);
      }
      var found := CoinBySymbol(db.tables.coins, normalized);
      if found.Err? {
        assert w == Written(Err(found.error), db.tables);
        return Err(found.error);
      }
      if found.value.Some? {
        var coin := found.value.value;
        var created := CreateMapping(db.tables, coin.id, source, sourceId, sourceSymbol, sourceName);
        if created.Err? {
          assert w == Written(Err(created.error), db.tables);
          return Err(created.error);
        }
        assert w == Written(Ok(coin.id), created.value);
        db.tables := created.value;
        return Ok(coin.id);
      }
      var name := NameOr(sourceName, normalized);
      ghost var f := CreateCoinWithMapping(db.tables, normalized, name, source, sourceId, sourceSymbol);
      assert w == if f.Ok? then Written(Ok(f.value.1), f.value.0) else Written(Err(f.error), db.tables);
      r := CreateCoinWithMappingIn(db, normalized, name, source, sourceId, sourceSymbol);
    }

    /** `_create_coin_with_mapping`: writes the coin and its mapping, or nothing when either insert fails. */
    method CreateCoinWithMappingIn(db: Store.Session, symbol: string, name: string, source: DataSource,
                                   sourceId: string, sourceSymbol: string) returns (r: Result<nat, DbError>)
      modifies db
      ensures var f := CreateCoinWithMapping(old(db.tables), symbol, name, source, sourceId, sourceSymbol);
              if f.Ok? then r == Ok(f.value.1) && db.tables == f.value.0
              else r == Err(f.error) && db.tables == old(db.tables)
    {
      var added := AddCoin(db.tables, symbol, name, GenerateSlug(symbol, name));
      if added.Err? {
        return Err(added.error);
      }
      var (t1, id) := added.value;
      var mapped := CreateMapping(t1, id, source, sourceId, sourceSymbol, Some(name));
      if mapped.Err? {
        return Err(mapped.error);
      }
      db.tables := mapped.value;
      return Ok(id);
    }

    /** `_ensure_mapping_exists`. */
    method EnsureMappingExists(db: Store.Session, coinId: nat, source: DataSource,
                               sourceId: string, sourceSymbol: string) returns (r: Result<(), DbError>)
      modifies this, db
      ensures Outcome(r, State(), db.tables) == EnsureMappingStep(old(State()), old(db.tables), coinId, source, sourceId, sourceSymbol)
    {
      var key := (source, sourceId);
      if key in mappingCache {
        return Ok(());
      }
      var created := CreateMapping(db.tables, coinId, source, sourceId, sourceSymbol, None);
      if created.Err? {
        return Err(created.error);
      }
      db.tables := created.value;
      mappingCache := mappingCache[key := coinId];
      return Ok(());
    }

    /** `resolve_by_symbol`. */
    method ResolveBySymbol(db: Store.Session, symbol: string, source: DataSource) returns (r: Result<nat, DbError>)
      modifies this, db
      ensures Outcome(r, State(), db.tables) == ResolveBySymbolStep(old(State()), old(db.tables), symbol, source)
    {
      ghost var c0 := State();
      ghost var t0 := db.tables;
      var normalized := NormalizedSymbol(symbol);
      if normalized in symbolCache {
        return Ok(symbolCache[normalized]);
      }
      var found := CoinBySymbol(db.tables.coins, normalized);
      if found.Err? {
        return Err(found.error);
      }
      if found.value.Some? {
        var coin := found.value.value;
        symbolCache := symbolCache[normalized := coin.id];
        assert State() == c0.(symbolCache := c0.symbolCache[normalized := coin.id]);
        var ensured := EnsureMappingExists(db, coin.id, source, normalized, normalized);
        if ensured.Err? {
          return Err(ensured.error);
        }
        return Ok(coin.id);
      }
      ghost var w := NewCoinForSymbol(t0, normalized, source);
      var created := CreateCoinWithMappingIn(db, normalized, normalized, source, normalized, normalized);
      assert created == w.result && db.tables == w.tables;
      if created.Err? {
        return Err(created.error);
      }
      symbolCache := symbolCache[normalized := created.value];
      return Ok(created.value);
    }

    /** `get_coin_id_by_symbol`. */
    method GetCoinIdBySymbol(db: Store.Session, symbol: string) returns (r: Result<Option<nat>, DbError>)
      modifies this
      ensures Outcome(r, State(), db.tables) == CoinIdBySymbolStep(old(State()), db.tables, symbol)
    {
      var normalized := NormalizedSymbol(symbol);
      if normalized in symbolCache {
        return Ok(Some(symbolCache[normalized]));
      }
      var found := CoinBySymbol(db.tables.coins, normalized);
      if found.Err? {
        return Err(found.error);
      }
      if found.value.None? {
        return Ok(None);
      }
      var id := found.value.value.id;
      if id != 0 {
        symbolCache := symbolCache[normalized := id];
      }
      return Ok(Some(id));
    }

    /** `preload_cache`: one pass over the mappings, one over the coins, then the flag. */
    method PreloadCache(db: Store.Session)
      modifies this
      ensures State() == PreloadStep(old(State()), db.tables)
    {
      if cacheLoaded {
        return;
      }
      var mappings := db.tables.mappings;
      ghost var mapped0 := mappingCache;
      var i := 0;
      while i < |mappings|
        invariant 0 <= i <= |mappings|
        invariant mappingCache == mapped0 + MappingEntries(mappings[..i])
        invariant symbolCache == old(symbolCache) && !cacheLoaded
      {
        MappingEntriesStep(mappings, i);
        UnionUpdate(mapped0, MappingEntries(mappings[..i]), (mappings[i].source, mappings[i].sourceId), mappings[i].coinId);
        mappingCache := mappingCache[(mappings[i].source, mappings[i].sourceId) := mappings[i].coinId];
        i := i + 1;
      }
      assert mappings[..i] == mappings;
      var coins := db.tables.coins;
      ghost var symbols0 := symbolCache;
      var j := 0;
      while j < |coins|
        invariant 0 <= j <= |coins|
        invariant mappingCache == old(mappingCache) + MappingEntries(mappings)
        invariant symbolCache == symbols0 + SymbolEntries(coins[..j])
        invariant !cacheLoaded
      {
        SymbolEntriesStep(coins, j);
        UnionUpdate(symbols0, SymbolEntries(coins[..j]), coins[j].symbol, coins[j].id);
        symbolCache := symbolCache[coins[j].symbol := coins[j].id];
        j := j + 1;
      }
      assert coins[..j] == coins;
      cacheLoaded := true;
    }

    /** `clear_cache`: both caches empty and the flag down. */
    method ClearCache()
      modifies this
      ensures State() == NoCaches
      ensures CacheStats() == (0, 0, false)
    {
      mappingCache := map[];
      symbolCache := map[];
      cacheLoaded := false;
    }

    /** `get_cache_stats`: the sizes of the two caches and the flag. */
    function CacheStats(): (r: (nat, nat, bool))
      reads this
    {
      (|mappingCache| as nat, |symbolCache| as nat, cacheLoaded)
    }
  }
}
