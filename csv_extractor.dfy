/**
 * The CSV extractor (app/ingestion/extractors/csv_extractor.py): the rows of a local
 * file read as dictionaries keyed by the cleaned header, their columns renamed to the
 * internal names, filtered by the checkpoint, and each record validated into a
 * candidate whose source id and name fall back to its symbol.
 *
 * Opening the file, sniffing its delimiter and splitting it into cells are foreign: the
 * file is a parameter, already split into a header and rows of cells, or the error
 * message reading it gave.
 */
module CsvExtractor {
  import opened Wrappers
  import opened Json
  import opened Library
  import opened Models
  import opened Schemas
  import opened Extraction
  import Text

  type Fields = seq<(string, Value)>

  /** The file at the configured path: missing, unreadable, or its cells. */
  datatype CsvFile =
    | Missing
    | Unreadable(reason: string)
    | Table(header: seq<string>, rows: seq<seq<string>>)

  /** COLUMN_MAP, in its order: a CSV column name and the internal name it is renamed to. */
  const ColumnMap: seq<(string, string)> :=
    [("ticker", "symbol"), ("price", "price_usd"), ("vol", "volume_24h"), ("date", "timestamp")]

  /** `key in COLUMN_MAP`. */
  predicate InColumnMap(k: string) {
    exists i :: 0 <= i < |ColumnMap| && ColumnMap[i].0 == k
  }

  /** One of the names COLUMN_MAP renames to. */
  predicate IsInternalName(k: string) {
    exists i :: 0 <= i < |ColumnMap| && ColumnMap[i].1 == k
  }

  lemma ColumnMapNames()
    ensures forall k :: InColumnMap(k) <==> k == "ticker" || k == "price" || k == "vol" || k == "date"
    ensures forall k :: IsInternalName(k) <==> k == "symbol" || k == "price_usd" || k == "volume_24h" || k == "timestamp"
  {
    assert ColumnMap[0].0 == "ticker" && ColumnMap[1].0 == "price" && ColumnMap[2].0 == "vol" && ColumnMap[3].0 == "date";
    assert ColumnMap[0].1 == "symbol" && ColumnMap[1].1 == "price_usd" && ColumnMap[2].1 == "volume_24h" && ColumnMap[3].1 == "timestamp";
  }

  // ---- reading the rows ----

  /** The header as `fieldnames` is rewritten: every column name stripped and lower-cased. */
  function CleanHeader(header: seq<string>): (r: seq<string>)
    ensures |r| == |header|
    ensures forall i :: 0 <= i < |header| ==> r[i] == Text.Lower(Text.Strip(header[i]))
  {
    seq(|header|, i requires 0 <= i < |header| => Text.Lower(Text.Strip(header[i])))
  }

  /** The value `csv.DictReader` puts under column `i`: the cell, or None past the end of a short row. */
  function Cell(values: seq<string>, i: nat): (v: Value)
  {
    if i < |values| then Str(values[i]) else Null
  }

  /**
   * The dictionary `csv.DictReader` makes of a row from the first `n` columns: each
   * column's value assigned in turn, so a repeated column name keeps its first place
   * and its last value.
   */
  function Zip(header: seq<string>, values: seq<string>, n: nat): (r: Fields)
    requires n <= |header|
    decreases n
  {
    if n == 0 then [] else Put(Zip(header, values, n - 1), header[n - 1], Cell(values, n - 1))
  }

  function RowDict(header: seq<string>, values: seq<string>): (r: Fields)
  {
    Zip(header, values, |header|)
  }

  /** Assignment column by column keeps every key once. */
  lemma {:induction false} ZipDistinct(header: seq<string>, values: seq<string>, n: nat)
    requires n <= |header|
    ensures DistinctKeys(Zip(header, values, n))
    decreases n
  {
    if n > 0 {
      ZipDistinct(header, values, n - 1);
      PutDistinct(Zip(header, values, n - 1), header[n - 1], Cell(values, n - 1));
    }
  }

  /** With distinct column names, each column holds its own cell. */
  lemma {:induction false} ZipGet(header: seq<string>, values: seq<string>, n: nat, i: nat)
    requires i < n <= |header|
    requires forall i, j :: 0 <= i < j < |header| ==> header[i] != header[j]
    ensures Get(Zip(header, values, n), header[i]) == Some(Cell(values, i))
    decreases n
  {
    var prev := Zip(header, values, n - 1);
    GetAfterPut(prev, header[n - 1], Cell(values, n - 1), header[i]);
    if i < n - 1 {
      ZipGet(header, values, n - 1, i);
      assert header[i] != header[n - 1];
    }
  }

  /** A name missing from the header is not a key of the row. */
  lemma {:induction false} ZipGetAbsent(header: seq<string>, values: seq<string>, n: nat, k: string)
    requires n <= |header|
    requires forall i :: 0 <= i < n ==> header[i] != k
    ensures Get(Zip(header, values, n), k).None?
    decreases n
  {
    if n > 0 {
      var prev := Zip(header, values, n - 1);
      ZipGetAbsent(header, values, n - 1, k);
      GetAfterPut(prev, header[n - 1], Cell(values, n - 1), k);
    }
  }

  /** The first loop of the row mapping: each CSV column of COLUMN_MAP found in the row, under its internal name. */
  function Renamed(row: Fields, cols: seq<(string, string)>): (r: Fields)
    decreases |cols|
  {
    if cols == [] then []
    else
      var m := Renamed(row, cols[..|cols| - 1]);
      var (csvCol, internal) := cols[|cols| - 1];
      match Get(row, csvCol)
      case Some(v) => Put(m, internal, v)
      case None => m
  }

  /** The second loop: every other entry of `items`, unless its key is a CSV name of COLUMN_MAP or is already there. */
  function WithExtras(m: Fields, items: Fields): (r: Fields)
    decreases |items|
  {
    if items == [] then m
    else
      var acc := WithExtras(m, items[..|items| - 1]);
      var (k, v) := items[|items| - 1];
      if !InColumnMap(k) && Get(acc, k).None? then Put(acc, k, v) else acc
  }

  /** `mapped_row`. */
  function MapRow(row: Fields): (r: Fields)
  {
    WithExtras(Renamed(row, ColumnMap), row)
  }

  /** After the first loop, an internal name holds its CSV column's value; no other key is present. */
  lemma RenamedGet(row: Fields, cols: seq<(string, string)>)
    requires forall i, j :: 0 <= i < j < |cols| ==> cols[i].1 != cols[j].1
    ensures DistinctKeys(Renamed(row, cols))
    ensures forall i :: 0 <= i < |cols| ==> Get(Renamed(row, cols), cols[i].1) == Get(row, cols[i].0)
    ensures forall k :: (forall i :: 0 <= i < |cols| ==> cols[i].1 != k) ==> Get(Renamed(row, cols), k).None?
  {
    RenamedDistinct(row, cols);
    forall i | 0 <= i < |cols| ensures Get(Renamed(row, cols), cols[i].1) == Get(row, cols[i].0) {
      RenamedMapped(row, cols, i);
    }
    forall k | (forall i :: 0 <= i < |cols| ==> cols[i].1 != k) ensures Get(Renamed(row, cols), k).None? {
      RenamedOther(row, cols, k);
    }
  }

  lemma {:induction false} RenamedDistinct(row: Fields, cols: seq<(string, string)>)
    ensures DistinctKeys(Renamed(row, cols))
    decreases |cols|
  {
    if cols != [] {
      var init := cols[..|cols| - 1];
      var (csvCol, internal) := cols[|cols| - 1];
      RenamedDistinct(row, init);
      if Get(row, csvCol).Some? {
        PutDistinct(Renamed(row, init), internal, Get(row, csvCol).value);
      }
    }
  }

  lemma {:induction false} RenamedMapped(row: Fields, cols: seq<(string, string)>, i: nat)
    requires forall i, j :: 0 <= i < j < |cols| ==> cols[i].1 != cols[j].1
    requires i < |cols|
    ensures Get(Renamed(row, cols), cols[i].1) == Get(row, cols[i].0)
    decreases |cols|
  {
    var n := |cols| - 1;
    var init := cols[..n];
    var internal := cols[n].1;
    var m := Renamed(row, init);
    var found := Get(row, cols[n].0);
    var key := cols[i].1;
    var r := Renamed(row, cols);
    if i < n {
      assert init[i] == cols[i] && key != internal;
      RenamedMapped(row, init, i);
      if found.Some? {
        assert r == Put(m, internal, found.value);
        PutGet(m, internal, found.value);
      } else {
        assert r == m;
      }
      assert Get(r, key) == Get(m, key);
    } else if found.None? {
      assert r == m;
      RenamedOther(row, init, internal);
    } else {
      assert r == Put(m, internal, found.value);
      PutGet(m, internal, found.value);
    }
  }

  lemma {:induction false} RenamedOther(row: Fields, cols: seq<(string, string)>, k: string)
    requires forall i :: 0 <= i < |cols| ==> cols[i].1 != k
    ensures Get(Renamed(row, cols), k).None?
    decreases |cols|
  {
    if cols != [] {
      var n := |cols| - 1;
      var init := cols[..n];
      var internal := cols[n].1;
      var m := Renamed(row, init);
      var found := Get(row, cols[n].0);
      assert internal != k;
      RenamedOther(row, init, k);
      if found.Some? {
        assert Renamed(row, cols) == Put(m, internal, found.value);
        PutGet(m, internal, found.value);
      } else {
        assert Renamed(row, cols) == m;
      }
    }
  }

  /**
   * The second loop adds, for a key that is not a CSV name of COLUMN_MAP and not yet
   * present, the first value `items` holds for it, and keeps every key unique.
   */
  lemma {:induction false} WithExtrasGet(m: Fields, items: Fields, k: string)
    ensures Get(WithExtras(m, items), k) ==
            if Get(m, k).Some? || InColumnMap(k) then Get(m, k) else Get(items, k)
    decreases |items|
  {
    if items != [] {
      var init := items[..|items| - 1];
      var k0 := items[|items| - 1].0;
      var v0 := items[|items| - 1].1;
      var acc := WithExtras(m, init);
      WithExtrasGet(m, init, k);
      assert items == init + [(k0, v0)];
      GetSnoc(init, k0, v0, k);
      if !InColumnMap(k0) && Get(acc, k0).None? {
        assert WithExtras(m, items) == Put(acc, k0, v0);
        GetAfterPut(acc, k0, v0, k);
      } else {
        assert WithExtras(m, items) == acc;
      }
    }
  }

  lemma {:induction false} WithExtrasDistinct(m: Fields, items: Fields)
    requires DistinctKeys(m)
    ensures DistinctKeys(WithExtras(m, items))
    decreases |items|
  {
    if items != [] {
      var init := items[..|items| - 1];
      var (k0, v0) := items[|items| - 1];
      WithExtrasDistinct(m, init);
      var acc := WithExtras(m, init);
      if !InColumnMap(k0) && Get(acc, k0).None? {
        PutDistinct(acc, k0, v0);
      }
    }
  }

  /** No internal name is a CSV name of COLUMN_MAP, and the internal names differ. */
  lemma NamesDisjoint()
    ensures forall i, j :: 0 <= i < |ColumnMap| && 0 <= j < |ColumnMap| ==> ColumnMap[i].0 != ColumnMap[j].1
    ensures forall i, j :: 0 <= i < j < |ColumnMap| ==> ColumnMap[i].1 != ColumnMap[j].1
  {
    assert "ticker"[0] == 't' && "price"[0] == 'p' && "vol"[0] == 'v' && "date"[0] == 'd';
    assert "symbol"[0] == 's' && "price_usd"[5] == '_' && "volume_24h"[3] == 'u' && "timestamp"[0] == 't';
    assert |"ticker"| == 6 && |"timestamp"| == 9 && |"price"| == 5 && |"price_usd"| == 9;
    assert |"vol"| == 3 && |"volume_24h"| == 10;
  }

  lemma MapRowDistinct(row: Fields)
    ensures DistinctKeys(MapRow(row))
  {
    NamesDisjoint();
    RenamedGet(row, ColumnMap);
    WithExtrasDistinct(Renamed(row, ColumnMap), row);
  }

  /**
   * An internal name holds its CSV column when the row has that column, and otherwise
   * the row's own entry under the internal name.
   */
  lemma MapRowInternal(row: Fields, i: nat)
    requires i < |ColumnMap|
    ensures Get(MapRow(row), ColumnMap[i].1) ==
            if Get(row, ColumnMap[i].0).Some? then Get(row, ColumnMap[i].0) else Get(row, ColumnMap[i].1)
  {
    NamesDisjoint();
    RenamedGet(row, ColumnMap);
    WithExtrasGet(Renamed(row, ColumnMap), row, ColumnMap[i].1);
  }

  /** No CSV name of COLUMN_MAP survives the mapping. */
  lemma MapRowDropsColumnNames(row: Fields, k: string)
    requires InColumnMap(k)
    ensures Get(MapRow(row), k).None?
  {
    NamesDisjoint();
    RenamedGet(row, ColumnMap);
    WithExtrasGet(Renamed(row, ColumnMap), row, k);
  }

  /** Every other column is copied unchanged. */
  lemma MapRowCopies(row: Fields, k: string)
    requires !InColumnMap(k) && !IsInternalName(k)
    ensures Get(MapRow(row), k) == Get(row, k)
  {
    RenamedGet(row, ColumnMap);
    WithExtrasGet(Renamed(row, ColumnMap), row, k);
  }

  /** The first loop of `fetch_data`'s row mapping. */
  method RenameColumns(row: Fields) returns (mapped: Fields)
    ensures mapped == Renamed(row, ColumnMap)
  {
    mapped := [];
    for i := 0 to |ColumnMap|
      invariant mapped == Renamed(row, ColumnMap[..i])
    {
      assert ColumnMap[..i + 1][..i] == ColumnMap[..i];
      var (csvCol, internal) := ColumnMap[i];
      var v := Get(row, csvCol);
      if v.Some? {
        mapped := Put(mapped, internal, v.value);
      }
    }
    assert ColumnMap[..|ColumnMap|] == ColumnMap;
  }

  /** Both loops of the row mapping. */
  method MapRowLoops(row: Fields) returns (mapped: Fields)
    ensures mapped == MapRow(row)
  {
    var renamed := RenameColumns(row);
    mapped := renamed;
    for i := 0 to |row|
      invariant mapped == WithExtras(renamed, row[..i])
    {
      assert row[..i + 1][..i] == row[..i];
      var (k, v) := row[i];
      if !InColumnMap(k) && Get(mapped, k).None? {
        mapped := Put(mapped, k, v);
      }
    }
    assert row[..|row|] == row;
  }

  /** The records of the rows: `csv.DictReader` skips empty rows; every other row is mapped. */
  function Records(header: seq<string>, rows: seq<seq<string>>): (r: seq<Fields>)
    ensures |r| <= |rows|
    decreases |rows|
  {
    if rows == [] then []
    else
      var last := rows[|rows| - 1];
      Records(header, rows[..|rows| - 1]) + if last == [] then [] else [MapRow(RowDict(header, last))]
  }

  /** The `for row in reader` loop. */
  method ReadRecords(header: seq<string>, rows: seq<seq<string>>) returns (records: seq<Fields>)
    ensures records == Records(header, rows)
  {
    records := [];
    for i := 0 to |rows|
      invariant records == Records(header, rows[..i])
    {
      assert rows[..i + 1][..i] == rows[..i];
      if rows[i] != [] {
        var mapped := MapRowLoops(RowDict(header, rows[i]));
        records := records + [mapped];
      }
    }
    assert rows[..|rows|] == rows;
  }

  // ---- the checkpoint filter ----

  /**
   * Whether the filter keeps a record: yes when its `timestamp` is missing or empty, or
   * when `RawCryptoRecord` cannot parse it; otherwise exactly when it is later than the
   * checkpoint. The time is parsed with the record's validators, not `fromisoformat`.
   */
  function KeepRecord(lib: Lib, checkpoint: Instant, record: Fields): (keep: bool)
    ensures !keep ==> Get(record, "timestamp").Some? && Truthy(Get(record, "timestamp").value)
  {
    match Get(record, "timestamp")
    case None => true
    case Some(ts) =>
      if !Truthy(ts) then true
      else match MakeRawRecord(lib, GetOr(record, "symbol", Str("UNKNOWN")), Null, Null, Null, Decoded(ts))
        case None => true
        case Some(parsed) => parsed.timestamp > checkpoint
  }

  /** A record is dropped exactly when its `timestamp` parses to a time no later than the checkpoint. */
  lemma KeepRecordExactly(lib: Lib, checkpoint: Instant, record: Fields)
    ensures !KeepRecord(lib, checkpoint, record) <==>
            Get(record, "timestamp").Some? && Truthy(Get(record, "timestamp").value) &&
            NormalizeTimestamp(lib, Decoded(Get(record, "timestamp").value)).Some? &&
            NormalizeTimestamp(lib, Decoded(Get(record, "timestamp").value)).value <= checkpoint
  {
  }

  /** The records `keep` accepts, in order. */
  function Kept(keep: Fields -> bool, records: seq<Fields>): (r: seq<Fields>)
    decreases |records|
  {
    if records == [] then []
    else
      var last := records[|records| - 1];
      Kept(keep, records[..|records| - 1]) + if keep(last) then [last] else []
  }

  /** The filter of `fetch_data`'s records. */
  function Since(lib: Lib, checkpoint: Instant): Fields -> bool {
    record => KeepRecord(lib, checkpoint, record)
  }

  /** The filter keeps exactly the records it accepts, no more than there were; it never fails. */
  lemma {:induction false} KeptExactly(keep: Fields -> bool, records: seq<Fields>)
    ensures |Kept(keep, records)| <= |records|
    ensures forall x :: x in Kept(keep, records) <==> x in records && keep(x)
    decreases |records|
  {
    if records != [] {
      var init := records[..|records| - 1];
      KeptExactly(keep, init);
      assert records == init + [records[|records| - 1]];
    }
  }

  method FilterRecords(lib: Lib, checkpoint: Instant, records: seq<Fields>) returns (filtered: seq<Fields>)
    ensures filtered == Kept(Since(lib, checkpoint), records)
  {
    filtered := [];
    for i := 0 to |records|
      invariant filtered == Kept(Since(lib, checkpoint), records[..i])
    {
      assert records[..i + 1][..i] == records[..i];
      if KeepRecord(lib, checkpoint, records[i]) {
        filtered := filtered + [records[i]];
      }
    }
    assert records[..|records|] == records;
  }

  // ---- fetch_data ----

  function AsValues(records: seq<Fields>): (r: seq<Value>)
    ensures |r| == |records|
    ensures forall i :: 0 <= i < |records| ==> r[i] == Dict(records[i])
  {
    seq(|records|, i requires 0 <= i < |records| => Dict(records[i]))
  }

  /** `fetch_data` on the file at `path`. */
  function Fetch(lib: Lib, path: string, file: CsvFile, checkpoint: Option<Instant>): (r: Result<seq<Value>, Failure>)
  {
    match file
    case Missing => Err(ExtractionError("CSV file not found: " + path))
    case Unreadable(reason) => Err(ExtractionError("Failed to read CSV file: " + reason))
    case Table(header, rows) =>
      var records := Records(CleanHeader(header), rows);
      match checkpoint
      case None => Ok(AsValues(records))
      case Some(t) => Ok(AsValues(Kept(Since(lib, t), records)))
  }

  method FetchData(lib: Lib, path: string, file: CsvFile, checkpoint: Option<Instant>) returns (r: Result<seq<Value>, Failure>)
    ensures r == Fetch(lib, path, file, checkpoint)
  {
    match file {
      case Missing =>
        return Err(ExtractionError("CSV file not found: " + path));
      case Unreadable(reason) =>
        return Err(ExtractionError("Failed to read CSV file: " + reason));
      case Table(header, rows) =>
        var records := ReadRecords(CleanHeader(header), rows);
        if checkpoint.Some? {
          records := FilterRecords(lib, checkpoint.value, records);
        }
        r := Ok(AsValues(records));
    }
  }

  /**
   * Reading fails only for a missing or unreadable file, each with its own message; a
   * table gives one dictionary per non-empty row, or fewer with a checkpoint, each
   * with unique keys when the cleaned header has none twice.
   */
  lemma FetchShape(lib: Lib, path: string, file: CsvFile, checkpoint: Option<Instant>)
    ensures var r := Fetch(lib, path, file, checkpoint);
            (r.Err? <==> !file.Table?) &&
            (file.Missing? ==> r.error.message == "CSV file not found: " + path) &&
            (file.Unreadable? ==> r.error.message == "Failed to read CSV file: " + file.reason) &&
            (file.Table? ==> |r.value| <= |file.rows| &&
                             forall v :: v in r.value ==> v.Dict? && DistinctKeys(v.fields))
  {
    if file.Table? {
      var records := Records(CleanHeader(file.header), file.rows);
      RecordsDistinct(CleanHeader(file.header), file.rows);
      if checkpoint.Some? {
        KeptExactly(Since(lib, checkpoint.value), records);
      }
    }
  }

  lemma {:induction false} RecordsDistinct(header: seq<string>, rows: seq<seq<string>>)
    ensures forall x :: x in Records(header, rows) ==> DistinctKeys(x)
    decreases |rows|
  {
    if rows != [] {
      RecordsDistinct(header, rows[..|rows| - 1]);
      MapRowDistinct(RowDict(header, rows[|rows| - 1]));
    }
  }

  // ---- normalize ----

  /** An `Optional[str]` field of the unified record: None, text, or refused. */
  function StrOrNone(v: Value): (r: Field<string>)
  {
    match v
    case Null => Accepted(None)
    case Str(s) => Accepted(Some(s))
    case _ => Refused
  }

  /** Python's `a or b`. */
  function Or(a: Value, b: Value): (r: Value)
  {
    if Truthy(a) then a else b
  }

  /** The value under `a`, else the one under `b`: `item.get(a, item.get(b))` without its default. */
  function First(f: Fields, a: string, b: string): (r: Option<Value>)
    ensures r.Some? <==> Get(f, a).Some? || Get(f, b).Some?
  {
    if Get(f, a).Some? then Get(f, a) else Get(f, b)
  }

  function OrDefault(o: Option<Value>, d: Value): Value {
    match o
    case Some(v) => v
    case None => d
  }

  /** `item.get("symbol", item.get("ticker", "UNKNOWN"))`. */
  function SymbolOf(f: Fields): Value {
    OrDefault(First(f, "symbol", "ticker"), Str("UNKNOWN"))
  }

  /** `item.get("price_usd", item.get("price"))`. */
  function PriceOf(f: Fields): Value {
    OrDefault(First(f, "price_usd", "price"), Null)
  }

  /** `item.get("volume_24h", item.get("vol"))`. */
  function VolumeOf(f: Fields): Value {
    OrDefault(First(f, "volume_24h", "vol"), Null)
  }

  /** The timestamp: `timestamp`, else `date`, else now. */
  function StampFor(f: Fields, now: Instant): Stamp {
    match First(f, "timestamp", "date")
    case Some(v) => Decoded(v)
    case None => Now(now)
  }

  /** The raw record of a dictionary item. */
  function Record(lib: Lib, now: Instant, f: Fields): (r: Option<RawRecord>)
    ensures r.Some? ==> r.value.symbol == NormalizeSymbol(lib, SymbolOf(f)) &&
                        r.value.priceUsd == CoerceToFloat(lib, PriceOf(f)) &&
                        r.value.marketCap == CoerceToFloat(lib, GetOr(f, "market_cap", Null)) &&
                        r.value.volume24h == CoerceToFloat(lib, VolumeOf(f))
  {
    MakeRawRecord(lib, SymbolOf(f), PriceOf(f), GetOr(f, "market_cap", Null), VolumeOf(f), StampFor(f, now))
  }

  /** `item.get("id") or symbol`. */
  function IdOf(f: Fields): Value {
    Or(GetOr(f, "id", Null), SymbolOf(f))
  }

  /** `item.get("name") or symbol`. */
  function NameOf(f: Fields): Value {
    Or(GetOr(f, "name", Null), SymbolOf(f))
  }

  /** The unified record built from a raw record, a source id and a name. */
  function Build(rec: Option<RawRecord>, id: Value, name: Value): (r: Option<Candidate>)
    ensures r.Some? ==> rec.Some? && r.value.source == Csv && r.value.symbol == rec.value.symbol &&
                        r.value.priceUsd == rec.value.priceUsd && r.value.marketCap == rec.value.marketCap &&
                        r.value.volume24h == rec.value.volume24h &&
                        Accepted(r.value.sourceId) == StrOrNone(id) && Accepted(r.value.name) == StrOrNone(name)
    ensures rec.Some? && StrOrNone(id).Accepted? && StrOrNone(name).Accepted? ==>
              (r.Some? <==> |rec.value.symbol| <= SymbolWidth)
  {
    match rec
    case None => None
    case Some(rec) =>
      var sourceId := StrOrNone(id);
      var nm := StrOrNone(name);
      if sourceId.Refused? || nm.Refused? then None
      else MakeCandidate(sourceId.value, nm.value, rec.symbol, rec.priceUsd, rec.marketCap, rec.volume24h,
                         Csv, rec.timestamp)
  }

  /**
   * One iteration of `normalize`: None when the item is not a dictionary, when
   * `RawCryptoRecord` refuses it, or when the unified record does.
   */
  function NormalizeItem(lib: Lib, now: Instant, item: Value): (r: Option<Candidate>)
    ensures r.Some? ==> item.Dict? && r.value.source == Csv
    ensures r.Some? ==> |r.value.symbol| <= SymbolWidth && Text.IsUpperCase(r.value.symbol)
  {
    if !item.Dict? then None
    else Build(Record(lib, now, item.fields), IdOf(item.fields), NameOf(item.fields))
  }

  /**
   * The identity falls back to the symbol as written, not the cleaned one: without an
   * `id` the candidate's source id is the raw symbol text, and without a `name` so is
   * its name. The numbers are coerced from `price_usd` (else `price`), `market_cap` and
   * `volume_24h` (else `vol`).
   */
  lemma NormalizeItemFields(lib: Lib, now: Instant, f: Fields)
    ensures var r := NormalizeItem(lib, now, Dict(f));
            r.Some? ==>
              Record(lib, now, f).Some? &&
              r.value.symbol == NormalizeSymbol(lib, SymbolOf(f)) &&
              r.value.priceUsd == CoerceToFloat(lib, GetOr(f, "price_usd", GetOr(f, "price", Null))) &&
              r.value.volume24h == CoerceToFloat(lib, GetOr(f, "volume_24h", GetOr(f, "vol", Null))) &&
              (!Truthy(GetOr(f, "id", Null)) && SymbolOf(f).Str? ==> r.value.sourceId == Some(SymbolOf(f).s)) &&
              (Truthy(GetOr(f, "id", Null)) ==> GetOr(f, "id", Null) == Str(r.value.sourceId.value)) &&
              (!Truthy(GetOr(f, "name", Null)) && SymbolOf(f).Str? ==> r.value.name == Some(SymbolOf(f).s))
  {
    var r := NormalizeItem(lib, now, Dict(f));
    if r.Some? {
      assert r == Build(Record(lib, now, f), IdOf(f), NameOf(f));
      FallbackRead(f, "price_usd", "price");
      FallbackRead(f, "volume_24h", "vol");
    }
  }

  /** A fallback read with no default is the nested `get`. */
  lemma FallbackRead(f: Fields, a: string, b: string)
    ensures OrDefault(First(f, a, b), Null) == GetOr(f, a, GetOr(f, b, Null))
  {
  }

  /** A lookup with a fallback reads through the renaming when the row lacks the internal name. */
  lemma FirstThroughMapRow(row: Fields, i: nat)
    requires i < |ColumnMap| && Get(row, ColumnMap[i].1).None?
    ensures First(MapRow(row), ColumnMap[i].1, ColumnMap[i].0) == First(row, ColumnMap[i].1, ColumnMap[i].0)
  {
    MapRowInternal(row, i);
    assert InColumnMap(ColumnMap[i].0);
    MapRowDropsColumnNames(row, ColumnMap[i].0);
  }

  /** `market_cap`, `id` and `name` are neither renamed nor internal names. */
  lemma OtherNames()
    ensures !InColumnMap("market_cap") && !IsInternalName("market_cap")
    ensures !InColumnMap("id") && !IsInternalName("id")
    ensures !InColumnMap("name") && !IsInternalName("name")
  {
    ColumnMapNames();
  }

  /**
   * Renaming the columns does not change what `normalize` makes of a row that uses
   * none of the internal names: the fallbacks read the CSV names directly.
   */
  lemma NormalizeMappedRow(lib: Lib, now: Instant, row: Fields)
    requires forall k :: IsInternalName(k) ==> Get(row, k).None?
    ensures NormalizeItem(lib, now, Dict(MapRow(row))) == NormalizeItem(lib, now, Dict(row))
  {
    var m := MapRow(row);
    assert ColumnMap[0] == ("ticker", "symbol") && ColumnMap[1] == ("price", "price_usd");
    assert ColumnMap[2] == ("vol", "volume_24h") && ColumnMap[3] == ("date", "timestamp");
    assert IsInternalName(ColumnMap[0].1) && IsInternalName(ColumnMap[1].1);
    assert IsInternalName(ColumnMap[2].1) && IsInternalName(ColumnMap[3].1);
    FirstThroughMapRow(row, 0);
    FirstThroughMapRow(row, 1);
    FirstThroughMapRow(row, 2);
    FirstThroughMapRow(row, 3);
    OtherNames();
    MapRowCopies(row, "market_cap");
    MapRowCopies(row, "id");
    MapRowCopies(row, "name");
    assert SymbolOf(m) == SymbolOf(row);
    assert Record(lib, now, m) == Record(lib, now, row);
  }

  /** `normalize`: the loop over the raw items. */
  method Normalize(lib: Lib, now: Instant, raw: seq<Value>) returns (normalized: seq<Candidate>)
    ensures normalized == FilterMap(item => NormalizeItem(lib, now, item), raw)
  {
    normalized := NormalizeEach(item => NormalizeItem(lib, now, item), raw);
  }

  /** Every candidate is a CSV one with a clean symbol; a refused item is dropped. */
  lemma NormalizedAreClean(lib: Lib, now: Instant, raw: seq<Value>)
    ensures var out := FilterMap(item => NormalizeItem(lib, now, item), raw);
            |out| <= |raw| &&
            forall c :: c in out ==> c.source == Csv && |c.symbol| <= SymbolWidth && Text.IsUpperCase(c.symbol)
  {
    var f := item => NormalizeItem(lib, now, item);
    FilterMapExactly(f, raw);
  }
}
