/**
 * The database the pipeline writes, as in-memory tables: PostgreSQL's behaviour for
 * the statements the pipeline issues (single-row inserts that are flushed at once,
 * the bulk `INSERT ... ON CONFLICT ... DO UPDATE`, lookups through `scalar_one_or_none`)
 * including the errors it raises for an over-long value, a duplicate key, a dangling
 * reference or a conflict target that no unique index matches.
 *
 * The schema is the one the Alembic migrations build (the application does not run
 * `create_all`): after 003_fix_unique_constraint the price table has two unique
 * indexes, `uq_crypto_symbol_source_timestamp (symbol, source, timestamp)` from the
 * first migration and the partial `ix_uq_coin_source_timestamp (coin_id, source,
 * timestamp) WHERE coin_id IS NOT NULL`.
 */
module Database {
  import opened Wrappers
  import opened Json
  import opened Models

  /** The errors the driver raises: IntegrityError, DataError or a `scalar_one_or_none` failure. */
  datatype DbError =
    | UniqueViolation(constraint: string)      // IntegrityError: duplicate key value
    | ForeignKeyViolation(constraint: string)  // IntegrityError: key is not present in the referenced table
    | ValueTooLong(column: string)             // DataError: value too long for character varying(n)
    | AffectsRowTwice                          // ON CONFLICT DO UPDATE command cannot affect row a second time
    | MultipleRows                             // MultipleResultsFound
    | NoRow                                    // NoResultFound (`scalar_one`)
    | NoArbiter                                // no unique or exclusion constraint matching the ON CONFLICT specification

  /** The tables and the two id sequences (a sequence is not rolled back with its transaction). */
  datatype Tables = Tables(
    coins: seq<Coin>,
    mappings: seq<Mapping>,
    prices: seq<PriceRow>,
    raws: seq<RawRow>,
    jobs: seq<EtlJob>,
    nextCoinId: nat,
    nextJobId: nat)

  /** An empty, freshly migrated database: `SERIAL` ids start at 1. */
  const Empty: Tables := Tables([], [], [], [], [], 1, 1)

  predicate JobIdsUnique(jobs: seq<EtlJob>) {
    forall i, j :: 0 <= i < j < |jobs| ==> jobs[i].id != jobs[j].id
  }

  /** Everything the schema guarantees. */
  predicate Consistent(t: Tables) {
    1 <= t.nextCoinId && 1 <= t.nextJobId &&
    (forall i :: 0 <= i < |t.coins| ==> 1 <= t.coins[i].id < t.nextCoinId) &&
    CoinIdsUnique(t.coins) && SlugsUnique(t.coins) &&
    MappingKeysUnique(t.mappings) && MappingsReferToCoins(t.mappings, t.coins) &&
    PricesReferToCoins(t.prices, t.coins) && IndexKeysUnique(t.prices) && SymbolKeysUnique(t.prices) &&
    (forall i :: 0 <= i < |t.jobs| ==> 1 <= t.jobs[i].id < t.nextJobId) &&
    JobIdsUnique(t.jobs)
  }

  lemma EmptyIsConsistent()
    ensures Consistent(Empty)
  {
  }

  /** A rollback: every table as it was at `saved`, the id sequences as they are now. */
  function Rollback(saved: Tables, current: Tables): (r: Tables)
    ensures r.coins == saved.coins && r.mappings == saved.mappings && r.prices == saved.prices
    ensures r.raws == saved.raws && r.jobs == saved.jobs
    ensures r.nextCoinId == current.nextCoinId && r.nextJobId == current.nextJobId
  {
    saved.(nextCoinId := current.nextCoinId, nextJobId := current.nextJobId)
  }

  /** Rolling back to a consistent state whose sequences have only moved forward is consistent. */
  lemma RollbackConsistent(saved: Tables, current: Tables)
    requires Consistent(saved)
    requires saved.nextCoinId <= current.nextCoinId && saved.nextJobId <= current.nextJobId
    ensures Consistent(Rollback(saved, current))
  {
  }

  // ---- Lookups ----

  /** `select(SourceAssetMapping).where(source == s, source_id == id)`. */
  function MappingOf(mappings: seq<Mapping>, source: DataSource, sourceId: string): (r: Option<Mapping>)
    ensures r.Some? ==> r.value in mappings && r.value.source == source && r.value.sourceId == sourceId
    ensures r.None? <==> forall i :: 0 <= i < |mappings| ==> (mappings[i].source, mappings[i].sourceId) != (source, sourceId)
    decreases |mappings|
  {
    if mappings == [] then None
    else if mappings[0].source == source && mappings[0].sourceId == sourceId then Some(mappings[0])
    else
      var r := MappingOf(mappings[1..], source, sourceId);
      assert forall i :: 1 <= i < |mappings| ==> mappings[i] == mappings[1..][i - 1];
      r
  }

  /** A row appended after the others is found only when no earlier row has its key. */
  lemma {:induction false} MappingOfAppend(mappings: seq<Mapping>, m: Mapping, source: DataSource, sourceId: string)
    ensures MappingOf(mappings + [m], source, sourceId) ==
            if MappingOf(mappings, source, sourceId).Some? then MappingOf(mappings, source, sourceId)
            else if m.source == source && m.sourceId == sourceId then Some(m)
            else None
    decreases |mappings|
  {
    var r := mappings + [m];
    if mappings != [] {
      assert r[0] == mappings[0] && r[1..] == mappings[1..] + [m];
      MappingOfAppend(mappings[1..], m, source, sourceId);
    } else {
      assert r == [m];
    }
  }

  /** Appending a coin keeps every coin and adds its id. */
  lemma HasCoinAppend(coins: seq<Coin>, c: Coin, id: nat)
    ensures HasCoin(coins + [c], id) <==> HasCoin(coins, id) || c.id == id
  {
    var r := coins + [c];
    if HasCoin(coins, id) {
      var i :| 0 <= i < |coins| && coins[i].id == id;
      assert r[i] == coins[i];
    }
    if c.id == id {
      assert r[|coins|] == c;
    }
    if HasCoin(r, id) {
      var i :| 0 <= i < |r| && r[i].id == id;
      if i < |coins| { assert r[i] == coins[i]; }
    }
  }

  /** The coins with a given symbol, in table order. */
  function CoinsWithSymbol(coins: seq<Coin>, symbol: string): (r: seq<Coin>)
    ensures forall c :: c in r <==> c in coins && c.symbol == symbol
    ensures (forall c :: c in coins ==> c.symbol != symbol) ==> r == []
    ensures |r| <= |coins|
    decreases |coins|
  {
    if coins == [] then []
    else if coins[0].symbol == symbol then [coins[0]] + CoinsWithSymbol(coins[1..], symbol)
    else CoinsWithSymbol(coins[1..], symbol)
  }

  /** A coin appended last is found last. */
  lemma {:induction false} CoinsWithSymbolAppend(coins: seq<Coin>, c: Coin, symbol: string)
    ensures CoinsWithSymbol(coins + [c], symbol) ==
            CoinsWithSymbol(coins, symbol) + (if c.symbol == symbol then [c] else [])
    decreases |coins|
  {
    var r := coins + [c];
    if coins != [] {
      assert r[0] == coins[0] && r[1..] == coins[1..] + [c];
      CoinsWithSymbolAppend(coins[1..], c, symbol);
    } else {
      assert r == [c];
      assert r[1..] == [];
    }
  }

  /** `select(Coin).where(Coin.symbol == s)` read with `scalar_one_or_none`. */
  function CoinBySymbol(coins: seq<Coin>, symbol: string): (r: Result<Option<Coin>, DbError>)
    ensures r == Ok(None) <==> forall c :: c in coins ==> c.symbol != symbol
    ensures r.Ok? && r.value.Some? ==> r.value.value in coins && r.value.value.symbol == symbol
    ensures r.Err? ==> r.error == MultipleRows
  {
    var found := CoinsWithSymbol(coins, symbol);
    if |found| == 0 then Ok(None)
    else if |found| == 1 then
      assert found[0] in found;
      Ok(Some(found[0]))
    else Err(MultipleRows)
  }

  /** With one coin per symbol the symbol query never finds two rows. */
  lemma {:induction false} SymbolQueryNeverAmbiguous(coins: seq<Coin>, symbol: string)
    requires SymbolsUnique(coins)
    ensures |CoinsWithSymbol(coins, symbol)| <= 1
    decreases |coins|
  {
    if coins != [] {
      SymbolQueryNeverAmbiguous(coins[1..], symbol);
      var rest := CoinsWithSymbol(coins[1..], symbol);
      if coins[0].symbol == symbol {
        forall c | c in coins[1..] ensures c.symbol != symbol {
          var k :| 0 <= k < |coins[1..]| && coins[1..][k] == c;
          assert coins[k + 1] == c;
        }
      }
    }
  }

  // ---- Single-row inserts, each flushed at once ----

  /** `session.add(Coin(...)); flush()`: the value-length checks, then `coins.slug UNIQUE`. */
  function AddCoin(t: Tables, symbol: string, name: string, slug: string): (r: Result<(Tables, nat), DbError>)
    ensures r.Ok? <==> |symbol| <= SymbolWidth && |name| <= NameWidth && |slug| <= SlugWidth &&
                       forall c :: c in t.coins ==> c.slug != slug
    ensures r.Ok? ==> r.value.1 == t.nextCoinId &&
                      r.value.0 == t.(coins := t.coins + [Coin(t.nextCoinId, symbol, name, slug)],
                                      nextCoinId := t.nextCoinId + 1)
    ensures r.Err? && |symbol| <= SymbolWidth && |name| <= NameWidth && |slug| <= SlugWidth ==>
              r.error == UniqueViolation("coins_slug_key")
  {
    if |symbol| > SymbolWidth then Err(ValueTooLong("coins.symbol"))
    else if |name| > NameWidth then Err(ValueTooLong("coins.name"))
    else if |slug| > SlugWidth then Err(ValueTooLong("coins.slug"))
    else if exists c :: c in t.coins && c.slug == slug then Err(UniqueViolation("coins_slug_key"))
    else Ok((t.(coins := t.coins + [Coin(t.nextCoinId, symbol, name, slug)], nextCoinId := t.nextCoinId + 1),
             t.nextCoinId))
  }

  lemma AddCoinConsistent(t: Tables, symbol: string, name: string, slug: string)
    requires Consistent(t)
    requires AddCoin(t, symbol, name, slug).Ok?
    ensures Consistent(AddCoin(t, symbol, name, slug).value.0)
  {
    var t' := AddCoin(t, symbol, name, slug).value.0;
    assert forall i :: 0 <= i < |t.coins| ==> t'.coins[i] == t.coins[i];
    forall id | HasCoin(t.coins, id) ensures HasCoin(t'.coins, id) {
      var i :| 0 <= i < |t.coins| && t.coins[i].id == id;
      assert t'.coins[i].id == id;
    }
  }

  /** `session.add(SourceAssetMapping(...)); flush()`: value lengths, the unique key, the coin reference. */
  function AddMapping(t: Tables, m: Mapping): (r: Result<Tables, DbError>)
    ensures r.Ok? <==> |m.sourceId| <= SourceIdWidth && |m.sourceSymbol| <= SymbolWidth &&
                       (m.sourceName.Some? ==> |m.sourceName.value| <= NameWidth) &&
                       MappingOf(t.mappings, m.source, m.sourceId).None? && HasCoin(t.coins, m.coinId)
    ensures r.Ok? ==> r.value == t.(mappings := t.mappings + [m])
  {
    if |m.sourceId| > SourceIdWidth then Err(ValueTooLong("source_asset_mappings.source_id"))
    else if |m.sourceSymbol| > SymbolWidth then Err(ValueTooLong("source_asset_mappings.source_symbol"))
    else if m.sourceName.Some? && |m.sourceName.value| > NameWidth then Err(ValueTooLong("source_asset_mappings.source_name"))
    else if MappingOf(t.mappings, m.source, m.sourceId).Some? then Err(UniqueViolation("uq_source_asset_mapping"))
    else if !HasCoin(t.coins, m.coinId) then Err(ForeignKeyViolation("source_asset_mappings_coin_id_fkey"))
    else Ok(t.(mappings := t.mappings + [m]))
  }

  lemma AddMappingConsistent(t: Tables, m: Mapping)
    requires Consistent(t)
    requires AddMapping(t, m).Ok?
    ensures Consistent(AddMapping(t, m).value)
  {
    var t' := AddMapping(t, m).value;
    forall i, j | 0 <= i < j < |t'.mappings|
      ensures (t'.mappings[i].source, t'.mappings[i].sourceId) != (t'.mappings[j].source, t'.mappings[j].sourceId)
    {
      if j == |t.mappings| {
        assert t'.mappings[i] == t.mappings[i];
      } else {
        assert t'.mappings[i] == t.mappings[i] && t'.mappings[j] == t.mappings[j];
      }
    }
  }

  /** `save_raw_data`: one audit row per payload, in order. */
  function AddRaws(t: Tables, source: DataSource, payloads: seq<Value>, at: Instant): (r: Tables)
    ensures |r.raws| == |t.raws| + |payloads| && r.raws[..|t.raws|] == t.raws
    ensures forall i :: 0 <= i < |payloads| ==> r.raws[|t.raws| + i] == RawRow(source, payloads[i], at)
    ensures r.(raws := t.raws) == t
  {
    t.(raws := t.raws + seq(|payloads|, i requires 0 <= i < |payloads| => RawRow(source, payloads[i], at)))
  }

  /** `create_etl_job`: a RUNNING record with no records, no checkpoint and no completion time. */
  function AddJob(t: Tables, source: DataSource, at: Instant): (r: (Tables, nat))
    ensures r.1 == t.nextJobId
    ensures r.0 == t.(jobs := t.jobs + [EtlJob(t.nextJobId, source, Running, None, 0, at, None, None)],
                      nextJobId := t.nextJobId + 1)
  {
    (t.(jobs := t.jobs + [EtlJob(t.nextJobId, source, Running, None, 0, at, None, None)],
        nextJobId := t.nextJobId + 1),
     t.nextJobId)
  }

  lemma AddJobConsistent(t: Tables, source: DataSource, at: Instant)
    requires Consistent(t)
    ensures Consistent(AddJob(t, source, at).0)
  {
    var t' := AddJob(t, source, at).0;
    assert forall i :: 0 <= i < |t.jobs| ==> t'.jobs[i] == t.jobs[i];
  }

  /** The position of the job with id `id`. */
  function JobIndex(jobs: seq<EtlJob>, id: nat): (r: Option<nat>)
    ensures r.Some? ==> r.value < |jobs| && jobs[r.value].id == id
    ensures r.None? <==> forall i :: 0 <= i < |jobs| ==> jobs[i].id != id
    decreases |jobs|
  {
    if jobs == [] then None
    else if jobs[|jobs| - 1].id == id then Some(|jobs| - 1)
    else JobIndex(jobs[..|jobs| - 1], id)
  }

  // ---- The bulk upsert ----

  /** What `ON CONFLICT DO UPDATE SET` writes over an existing row: five columns, the rest kept. */
  function MergeRow(existing: PriceRow, incoming: PriceRow): (r: PriceRow)
    ensures r.coinId == existing.coinId && r.symbol == existing.symbol && r.timestamp == existing.timestamp
    ensures r.priceUsd == incoming.priceUsd && r.marketCap == incoming.marketCap &&
            r.volume24h == incoming.volume24h && r.source == incoming.source && r.ingestedAt == incoming.ingestedAt
  {
    existing.(priceUsd := incoming.priceUsd, marketCap := incoming.marketCap, volume24h := incoming.volume24h,
              source := incoming.source, ingestedAt := incoming.ingestedAt)
  }

  /** The first row of `rows` with the same `(coin_id, source, timestamp)` as `row`, if any. */
  function Conflicting(rows: seq<PriceRow>, row: PriceRow): (r: Option<PriceRow>)
    ensures r.Some? ==> r.value in rows && SameIndexKey(r.value, row)
    ensures r.None? <==> forall k :: 0 <= k < |rows| ==> !SameIndexKey(rows[k], row)
    decreases |rows|
  {
    if rows == [] then None
    else if SameIndexKey(rows[0], row) then Some(rows[0])
    else
      var r := Conflicting(rows[1..], row);
      assert forall k :: 1 <= k < |rows| ==> rows[k] == rows[1..][k - 1];
      r
  }

  /** The proposed rows that conflict with no existing row, in order: the ones inserted. */
  function Fresh(existing: seq<PriceRow>, rows: seq<PriceRow>): (r: seq<PriceRow>)
    ensures forall x :: x in r <==> x in rows && Conflicting(existing, x).None?
    ensures (forall x :: x in rows ==> Conflicting(existing, x).Some?) ==> r == []
    ensures |r| <= |rows|
    decreases |rows|
  {
    if rows == [] then []
    else if Conflicting(existing, rows[0]).None? then [rows[0]] + Fresh(existing, rows[1..])
    else Fresh(existing, rows[1..])
  }

  /**
   * The table after `INSERT ... ON CONFLICT (coin_id, source, timestamp) DO UPDATE` of
   * rows with distinct keys: each existing row is merged with the proposed row that
   * conflicts with it, and the proposed rows that conflict with none are appended.
   */
  function UpsertedPrices(existing: seq<PriceRow>, rows: seq<PriceRow>): (r: seq<PriceRow>)
    ensures |r| == |existing| + |Fresh(existing, rows)|
    ensures forall k :: 0 <= k < |existing| ==>
              r[k] == match Conflicting(rows, existing[k])
                      case Some(x) => MergeRow(existing[k], x)
                      case None => existing[k]
    ensures forall k :: 0 <= k < |existing| ==>
              r[k].coinId == existing[k].coinId && r[k].timestamp == existing[k].timestamp &&
              r[k].symbol == existing[k].symbol && r[k].source == existing[k].source
    ensures forall j :: 0 <= j < |Fresh(existing, rows)| ==> r[|existing| + j] == Fresh(existing, rows)[j]
  {
    seq(|existing|, k requires 0 <= k < |existing| =>
          match Conflicting(rows, existing[k])
          case Some(x) => MergeRow(existing[k], x)
          case None => existing[k])
    + Fresh(existing, rows)
  }

  /**
   * The conflict target of `on_conflict_do_update`: the `index_elements=["coin_id",
   * "timestamp"]` the service names, or `(coin_id, source, timestamp)` with
   * `index_where` `coin_id IS NOT NULL`, which the partial index serves.
   */
  datatype ConflictTarget = CoinTimestamp | CoinSourceTimestamp

  /**
   * Whether a unique index of the schema matches the target. Neither schema (the
   * migrated one, nor the one the models declare: `(coin_id, source, timestamp)` and
   * `(symbol, timestamp)`) has a unique index on exactly `(coin_id, timestamp)`.
   */
  predicate HasArbiter(target: ConflictTarget) {
    target.CoinSourceTimestamp?
  }

  /** The constraint a proposed row that collides on `(symbol, source, timestamp)` violates. */
  const SymbolKey: string := "uq_crypto_symbol_source_timestamp"

  /**
   * `session.execute(insert(...).on_conflict_do_update(...))`: PostgreSQL refuses a
   * target no unique index matches before it looks at a row; otherwise the statement
   * fails on a dangling coin id, on two proposed rows with one key, or on a row that
   * collides with another under `(symbol, source, timestamp)`, and writes nothing then.
   * Where several rows fail, the error reported is the first that applies here.
   */
  function Upsert(t: Tables, rows: seq<PriceRow>, target: ConflictTarget): (r: Result<Tables, DbError>)
    ensures !HasArbiter(target) ==> r == Err(NoArbiter)
    ensures r.Ok? <==> HasArbiter(target) && IndexKeysUnique(rows) && PricesReferToCoins(rows, t.coins) &&
                       SymbolKeysUnique(UpsertedPrices(t.prices, rows))
    ensures r.Ok? ==> r.value == t.(prices := UpsertedPrices(t.prices, rows))
    ensures r.Err? && HasArbiter(target) && PricesReferToCoins(rows, t.coins) ==>
              r.error == AffectsRowTwice || r.error == UniqueViolation(SymbolKey)
    ensures r.Err? && HasArbiter(target) && PricesReferToCoins(rows, t.coins) && IndexKeysUnique(rows) ==>
              r.error == UniqueViolation(SymbolKey)
  {
    if !HasArbiter(target) then Err(NoArbiter)
    else if !PricesReferToCoins(rows, t.coins) then Err(ForeignKeyViolation("unified_crypto_data_coin_id_fkey"))
    else if !IndexKeysUnique(rows) then Err(AffectsRowTwice)
    else
      var p := UpsertedPrices(t.prices, rows);
      if !SymbolKeysUnique(p) then Err(UniqueViolation(SymbolKey))
      else Ok(t.(prices := p))
  }

  // ---- What the upsert promises ----

  lemma SameIndexKeySymmetric(a: PriceRow, b: PriceRow)
    ensures SameIndexKey(a, b) == SameIndexKey(b, a)
  {
  }

  /** Whether a row conflicts depends only on its `(coin_id, source, timestamp)`. */
  lemma {:induction false} ConflictingByKey(rows: seq<PriceRow>, a: PriceRow, b: PriceRow)
    requires a.coinId == b.coinId && a.source == b.source && a.timestamp == b.timestamp
    ensures Conflicting(rows, a) == Conflicting(rows, b)
    decreases |rows|
  {
    if rows != [] {
      ConflictingByKey(rows[1..], a, b);
    }
  }

  /** Among rows with distinct keys, the row conflicting with a member is that member. */
  lemma ConflictingIsItself(rows: seq<PriceRow>, x: PriceRow)
    requires IndexKeysUnique(rows)
    requires x in rows && x.coinId.Some?
    ensures Conflicting(rows, x) == Some(x)
  {
    var j :| 0 <= j < |rows| && rows[j] == x;
    assert SameIndexKey(rows[j], x);
    var y := Conflicting(rows, x).value;
    var i :| 0 <= i < |rows| && rows[i] == y;
  }

  lemma {:induction false} FreshKeysUnique(existing: seq<PriceRow>, rows: seq<PriceRow>)
    requires IndexKeysUnique(rows)
    ensures IndexKeysUnique(Fresh(existing, rows))
    decreases |rows|
  {
    if rows != [] {
      var tail := rows[1..];
      KeysUniqueTail(rows);
      FreshKeysUnique(existing, tail);
      var f := Fresh(existing, tail);
      if Conflicting(existing, rows[0]).None? {
        assert Fresh(existing, rows) == [rows[0]] + f;
        forall y | y in f ensures !SameIndexKey(rows[0], y) {
          assert y in tail;
          var k :| 0 <= k < |tail| && tail[k] == y;
          assert rows[k + 1] == y;
        }
        KeysUniquePrepend(rows[0], f);
      }
    }
  }

  lemma KeysUniqueTail(rows: seq<PriceRow>)
    requires rows != [] && IndexKeysUnique(rows)
    ensures IndexKeysUnique(rows[1..])
  {
    var tail := rows[1..];
    forall i, j | 0 <= i < j < |tail| ensures !SameIndexKey(tail[i], tail[j]) {
      assert tail[i] == rows[i + 1] && tail[j] == rows[j + 1];
    }
  }

  lemma KeysUniquePrepend(x: PriceRow, rows: seq<PriceRow>)
    requires IndexKeysUnique(rows)
    requires forall y :: y in rows ==> !SameIndexKey(x, y)
    ensures IndexKeysUnique([x] + rows)
  {
    var r := [x] + rows;
    forall i, j | 0 <= i < j < |r| ensures !SameIndexKey(r[i], r[j]) {
      assert r[j] == rows[j - 1];
      if i > 0 {
        assert r[i] == rows[i - 1];
      }
    }
  }

  /** A successful upsert keeps the database consistent. */
  lemma UpsertConsistent(t: Tables, rows: seq<PriceRow>, g: ConflictTarget)
    requires Consistent(t)
    requires Upsert(t, rows, g).Ok?
    ensures Consistent(Upsert(t, rows, g).value)
  {
    UpsertedKeysUnique(t.prices, rows);
    UpsertedReferToCoins(t, rows);
  }

  /** Proposed rows with distinct keys leave the price table's keys distinct. */
  lemma UpsertedKeysUnique(p: seq<PriceRow>, rows: seq<PriceRow>)
    requires IndexKeysUnique(p) && IndexKeysUnique(rows)
    ensures IndexKeysUnique(UpsertedPrices(p, rows))
  {
    var r := UpsertedPrices(p, rows);
    var f := Fresh(p, rows);
    FreshKeysUnique(p, rows);
    forall i, j | 0 <= i < j < |r| ensures !SameIndexKey(r[i], r[j]) {
      if j < |p| {
        assert !SameIndexKey(p[i], p[j]);
      } else if i < |p| {
        var x := f[j - |p|];
        assert x in f;
        assert Conflicting(p, x).None?;
        assert !SameIndexKey(p[i], x);
      } else {
        assert r[i] == f[i - |p|] && r[j] == f[j - |p|];
      }
    }
  }

  /** Proposed rows whose coins exist leave every price row referring to a coin. */
  lemma UpsertedReferToCoins(t: Tables, rows: seq<PriceRow>)
    requires PricesReferToCoins(t.prices, t.coins) && PricesReferToCoins(rows, t.coins)
    ensures PricesReferToCoins(UpsertedPrices(t.prices, rows), t.coins)
  {
    var p := t.prices;
    var r := UpsertedPrices(p, rows);
    var f := Fresh(p, rows);
    forall k | 0 <= k < |r| && r[k].coinId.Some? ensures HasCoin(t.coins, r[k].coinId.value) {
      if k < |p| {
        assert r[k].coinId == p[k].coinId;
      } else {
        var x := f[k - |p|];
        assert r[k] == x && x in f;
        assert x in rows;
        var m :| 0 <= m < |rows| && rows[m] == x;
        assert HasCoin(t.coins, rows[m].coinId.value);
      }
    }
  }

  /**
   * After a successful upsert every proposed row with a coin id is in the table under
   * its key with its five updatable values; an existing row keeps its coin id, symbol
   * and timestamp, and is untouched when no proposed row shares its key.
   */
  lemma UpsertWritesRows(t: Tables, rows: seq<PriceRow>, g: ConflictTarget)
    requires Upsert(t, rows, g).Ok?
    ensures var r := Upsert(t, rows, g).value.prices;
            forall x :: x in rows && x.coinId.Some? ==>
              exists k :: 0 <= k < |r| && SameIndexKey(r[k], x) && r[k] == MergeRow(r[k], x)
    ensures var r := Upsert(t, rows, g).value.prices;
            forall k :: 0 <= k < |t.prices| ==>
              r[k].coinId == t.prices[k].coinId && r[k].symbol == t.prices[k].symbol &&
              r[k].timestamp == t.prices[k].timestamp &&
              (Conflicting(rows, t.prices[k]).None? ==> r[k] == t.prices[k])
  {
    var r := UpsertedPrices(t.prices, rows);
    assert Upsert(t, rows, g).value.prices == r;
    forall x | x in rows && x.coinId.Some?
      ensures exists k :: 0 <= k < |r| && SameIndexKey(r[k], x) && r[k] == MergeRow(r[k], x)
    {
      var k := UpsertWritesRow(t.prices, rows, x);
    }
  }

  /** A proposed row is written under its key: merged into the row it conflicts with, or appended. */
  lemma UpsertWritesRow(p: seq<PriceRow>, rows: seq<PriceRow>, x: PriceRow) returns (k: nat)
    requires IndexKeysUnique(rows) && x in rows && x.coinId.Some?
    ensures var r := UpsertedPrices(p, rows);
            k < |r| && SameIndexKey(r[k], x) && r[k] == MergeRow(r[k], x)
  {
    var r := UpsertedPrices(p, rows);
    match Conflicting(p, x)
    case Some(e) =>
      var i :| 0 <= i < |p| && p[i] == e;
      ConflictingByKey(rows, p[i], x);
      ConflictingIsItself(rows, x);
      assert r[i] == MergeRow(p[i], x);
      k := i;
    case None =>
      var f := Fresh(p, rows);
      assert x in f;
      var j :| 0 <= j < |f| && f[j] == x;
      assert r[|p| + j] == x;
      k := |p| + j;
  }

  /** After an upsert a proposed row with a coin id conflicts with a row of the table. */
  lemma ConflictsAfterUpsert(p: seq<PriceRow>, rows: seq<PriceRow>, x: PriceRow)
    requires x in rows && x.coinId.Some?
    ensures Conflicting(UpsertedPrices(p, rows), x).Some?
  {
    var r := UpsertedPrices(p, rows);
    match Conflicting(p, x)
    case Some(e) =>
      var k :| 0 <= k < |p| && p[k] == e;
      assert SameIndexKey(r[k], x);
    case None =>
      var f := Fresh(p, rows);
      assert x in f;
      var j :| 0 <= j < |f| && f[j] == x;
      assert SameIndexKey(r[|p| + j], x);
  }

  /** After an upsert of rows with coin ids, no proposed row is fresh any more. */
  lemma UpsertLeavesNothingFresh(p: seq<PriceRow>, rows: seq<PriceRow>)
    requires forall k :: 0 <= k < |rows| ==> rows[k].coinId.Some?
    ensures Fresh(UpsertedPrices(p, rows), rows) == []
  {
    forall x | x in rows ensures Conflicting(UpsertedPrices(p, rows), x).Some? {
      ConflictsAfterUpsert(p, rows, x);
    }
  }

  /** A second pass merges every row with what it was already merged with. */
  lemma UpsertFixesRows(p: seq<PriceRow>, rows: seq<PriceRow>, k: nat)
    requires IndexKeysUnique(rows)
    requires forall i :: 0 <= i < |rows| ==> rows[i].coinId.Some?
    requires k < |UpsertedPrices(p, rows)|
    ensures var r := UpsertedPrices(p, rows);
            (match Conflicting(rows, r[k]) case Some(x) => MergeRow(r[k], x) case None => r[k]) == r[k]
  {
    var r := UpsertedPrices(p, rows);
    var f := Fresh(p, rows);
    if k < |p| {
      ConflictingByKey(rows, r[k], p[k]);
    } else {
      var x := f[k - |p|];
      assert x in f && r[k] == x;
      var m :| 0 <= m < |rows| && rows[m] == x;
      ConflictingIsItself(rows, x);
    }
  }

  /** Running the same upsert twice leaves the table as running it once. */
  lemma UpsertIdempotent(t: Tables, rows: seq<PriceRow>, g: ConflictTarget)
    requires Upsert(t, rows, g).Ok?
    requires forall k :: 0 <= k < |rows| ==> rows[k].coinId.Some?
    ensures Upsert(Upsert(t, rows, g).value, rows, g) == Upsert(t, rows, g)
  {
    var r := UpsertedPrices(t.prices, rows);
    UpsertLeavesNothingFresh(t.prices, rows);
    var r2 := UpsertedPrices(r, rows);
    forall k | 0 <= k < |r| ensures r2[k] == r[k] {
      UpsertFixesRows(t.prices, rows, k);
    }
    assert r2 == r;
  }
}

/** The session the pipeline writes through: the tables as the open transaction sees them. */
module Store {
  import opened Database

  class Session {
    var tables: Tables

    constructor (t: Tables)
      ensures tables == t
    {
      tables := t;
    }
  }
}
