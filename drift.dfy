/**
 * Drift detection over a batch of raw records (app/ingestion/drift.py): columns
 * that went missing or were renamed, new columns, null-value spikes and dtype
 * changes, each reported as a `DriftResult` and kept in the detector's history.
 *
 * A batch is seen as pandas sees it: its row count and, per column, the number of
 * null cells and the dtype name. Null ratios are exact rationals. The string
 * similarity, the `{:.1%}` rendering of a ratio and the rendering of a set of
 * column names are parameters, as is the clock.
 */
module Drift {
  import opened Wrappers
  import opened Models
  import Fuzzy
  import Text

  datatype DriftSeverity = Info | Warning | Critical

  function SeverityValue(s: DriftSeverity): (v: string)
    ensures v in SeverityValues
  {
    match s
    case Info => "info"
    case Warning => "warning"
    case Critical => "critical"
  }

  const SeverityValues: seq<string> := ["info", "warning", "critical"]

  /** The `drift_type` strings the detector emits. */
  datatype DriftType = SchemaRename | SchemaMissing | SchemaExtra | QualityNulls | TypeChange

  function TypeValue(t: DriftType): (v: string)
    ensures v in TypeValues
  {
    match t
    case SchemaRename => "schema_rename"
    case SchemaMissing => "schema_missing"
    case SchemaExtra => "schema_extra"
    case QualityNulls => "quality_nulls"
    case TypeChange => "type_change"
  }

  const TypeValues: seq<string> := ["schema_rename", "schema_missing", "schema_extra", "quality_nulls", "type_change"]

  /** The `details` dictionary of each kind of result. */
  datatype Details =
    | Renamed(column: string, matched: string, similarity: real)
    | Missing(column: string, available: seq<string>)
    | Extra(columns: seq<string>)
    | Nulls(column: string, ratio: real, threshold: real, rowCount: nat, nullCount: nat)
    | TypeChanged(column: string, expectedType: string, actualType: string)

  datatype DriftResult = DriftResult(
    driftType: DriftType,
    severity: DriftSeverity,
    confidence: real,
    message: string,
    details: Details,
    timestamp: Instant)

  /** One column of a batch: its name, how many of its cells are null, and its dtype name. */
  datatype Column = Column(name: string, nulls: nat, dtype: string)

  datatype Frame = Frame(rows: nat, columns: seq<Column>)

  /** A column never has more null cells than the batch has rows. */
  type DataFrame = f: Frame | forall i :: 0 <= i < |f.columns| ==> f.columns[i].nulls <= f.rows
    witness Frame(0, [])

  /** How a ratio and a set of column names are rendered in messages. */
  datatype Format = Format(percent: real -> string, names: seq<string> -> string)

  const DefaultNullThreshold: real := 0.1
  const DefaultFuzzyThreshold: real := 0.8

  function Names(cols: seq<Column>): (r: seq<string>)
    ensures |r| == |cols|
    ensures forall i :: 0 <= i < |cols| ==> r[i] == cols[i].name
  {
    seq(|cols|, i requires 0 <= i < |cols| => cols[i].name)
  }

  predicate NoDuplicates(s: seq<string>) {
    forall i, j :: 0 <= i < j < |s| ==> s[i] != s[j]
  }

  /** The distinct elements of `s` in order of first occurrence: how a Python set of them is iterated here. */
  function Distinct(s: seq<string>): (r: seq<string>)
    ensures NoDuplicates(r)
    ensures forall x :: x in r <==> x in s
    decreases |s|
  {
    if s == [] then []
    else
      var d := Distinct(s[..|s| - 1]);
      var last := s[|s| - 1];
      assert forall x :: x in s <==> x in s[..|s| - 1] || x == last;
      if last in d then d else d + [last]
  }

  /** The elements of `cols` not in `present`, in order. */
  function Absent(cols: seq<string>, present: seq<string>): (r: seq<string>)
    ensures forall x :: x in r <==> x in cols && x !in present
    ensures r == [] <==> forall x :: x in cols ==> x in present
    ensures NoDuplicates(cols) ==> NoDuplicates(r)
    decreases |cols|
  {
    if cols == [] then []
    else
      var init := Absent(cols[..|cols| - 1], present);
      var last := cols[|cols| - 1];
      assert forall x :: x in cols <==> x in cols[..|cols| - 1] || x == last;
      if last in present then init else init + [last]
  }

  // ---- check_schema ----

  /** `expected_set - actual_columns`. */
  function MissingColumns(expected: seq<string>, actual: seq<string>): (r: seq<string>)
  {
    Absent(Distinct(expected), actual)
  }

  /** `actual_columns - expected_set`. */
  function ExtraColumns(expected: seq<string>, actual: seq<string>): (r: seq<string>)
  {
    Absent(Distinct(actual), expected)
  }

  /** The result for one expected column that is absent: a rename if some column is close enough, else missing. */
  function SchemaFinding(sim: Fuzzy.Similarity, col: string, actual: seq<string>, cutoff: real, now: Instant): (r: DriftResult)
    ensures r.details.Renamed? || r.details.Missing?
    ensures r.details.column == col && r.timestamp == now
  {
    match Fuzzy.CloseMatch(sim, col, Distinct(actual), cutoff)
    case Some(best) =>
      DriftResult(SchemaRename, Warning, sim(col, best),
                  "Column '" + col + "' may have been renamed to '" + best + "'",
                  Renamed(col, best, sim(col, best)), now)
    case None =>
      DriftResult(SchemaMissing, Critical, 1.0,
                  "Required column '" + col + "' is missing",
                  Missing(col, Distinct(actual)), now)
  }

  /** One finding per column of `cols`, in order. */
  function MissingResults(sim: Fuzzy.Similarity, cols: seq<string>, actual: seq<string>, cutoff: real, now: Instant): (r: seq<DriftResult>)
    ensures |r| == |cols|
    ensures forall i :: 0 <= i < |cols| ==> r[i] == SchemaFinding(sim, cols[i], actual, cutoff, now)
    decreases |cols|
  {
    if cols == [] then []
    else MissingResults(sim, cols[..|cols| - 1], actual, cutoff, now) + [SchemaFinding(sim, cols[|cols| - 1], actual, cutoff, now)]
  }

  /** The single informational result listing the new columns. */
  function ExtraFinding(fmt: Format, extra: seq<string>, now: Instant): (r: DriftResult)
    ensures r.driftType == SchemaExtra && r.severity == Info && r.details == Extra(extra)
  {
    DriftResult(SchemaExtra, Info, 1.0, "New columns detected: " + fmt.names(extra), Extra(extra), now)
  }

  /** What `check_schema` returns for a batch with the columns `actual`. */
  function SchemaResults(sim: Fuzzy.Similarity, fmt: Format, expected: seq<string>, actual: seq<string>,
                         cutoff: real, now: Instant): (r: seq<DriftResult>)
  {
    var extra := ExtraColumns(expected, actual);
    MissingResults(sim, MissingColumns(expected, actual), actual, cutoff, now) +
    (if extra != [] then [ExtraFinding(fmt, extra, now)] else [])
  }

  /**
   * Every expected column that is absent yields exactly one result naming it, in
   * front of everything else: a WARNING rename when some present column is
   * close enough, otherwise a CRITICAL missing column with confidence 1.
   */
  lemma SchemaMissingOnePerColumn(sim: Fuzzy.Similarity, fmt: Format, expected: seq<string>, actual: seq<string>,
                                  cutoff: real, now: Instant)
    ensures var missing := MissingColumns(expected, actual);
            var r := SchemaResults(sim, fmt, expected, actual, cutoff, now);
            |missing| <= |r| &&
            (forall c :: c in missing <==> c in expected && c !in actual) &&
            (forall i, j :: 0 <= i < j < |missing| ==> r[i].details.column != r[j].details.column) &&
            (forall i :: 0 <= i < |missing| ==>
               r[i].details.column == missing[i] &&
               (r[i].driftType == SchemaRename <==> Fuzzy.CloseMatch(sim, missing[i], Distinct(actual), cutoff).Some?) &&
               (r[i].driftType == SchemaRename ==> r[i].severity == Warning) &&
               (r[i].driftType != SchemaRename ==> r[i].driftType == SchemaMissing && r[i].severity == Critical && r[i].confidence == 1.0))
  {
    var missing := MissingColumns(expected, actual);
    var r := SchemaResults(sim, fmt, expected, actual, cutoff, now);
    forall i | 0 <= i < |missing|
      ensures r[i] == SchemaFinding(sim, missing[i], actual, cutoff, now)
    {
      assert r[i] == MissingResults(sim, missing, actual, cutoff, now)[i];
    }
  }

  /**
   * A rename's confidence is the similarity of the expected name and the match, it
   * lies in [0, 1] and is the reported score; the match is a present column that
   * reached the cutoff.
   */
  lemma RenameConfidence(sim: Fuzzy.Similarity, col: string, actual: seq<string>, cutoff: real, now: Instant)
    requires col !in actual
    ensures var r := SchemaFinding(sim, col, actual, cutoff, now);
            r.driftType == SchemaRename ==>
              r.details.Renamed? && r.details.matched in actual && r.details.matched != col &&
              sim(r.details.matched, col) >= cutoff &&
              r.confidence == sim(col, r.details.matched) == r.details.similarity &&
              0.0 <= r.confidence <= 1.0
  {
  }

  /** New columns give at most one result, the last one, listing exactly those columns. */
  lemma SchemaExtraAtMostOne(sim: Fuzzy.Similarity, fmt: Format, expected: seq<string>, actual: seq<string>,
                             cutoff: real, now: Instant)
    ensures var r := SchemaResults(sim, fmt, expected, actual, cutoff, now);
            var extra := ExtraColumns(expected, actual);
            (forall i :: 0 <= i < |r| && r[i].driftType == SchemaExtra ==> i == |r| - 1) &&
            ((exists c :: c in actual && c !in expected) <==> |r| > 0 && r[|r| - 1].driftType == SchemaExtra) &&
            (extra != [] ==> r[|r| - 1].details == Extra(extra)) &&
            (forall c :: c in extra <==> c in actual && c !in expected) &&
            NoDuplicates(extra)
  {
    var missing := MissingColumns(expected, actual);
    var r := SchemaResults(sim, fmt, expected, actual, cutoff, now);
    forall i | 0 <= i < |missing| ensures r[i].driftType != SchemaExtra {
      assert r[i] == MissingResults(sim, missing, actual, cutoff, now)[i];
    }
    var extra := ExtraColumns(expected, actual);
    if extra == [] && |r| > 0 {
      assert r[|r| - 1] == SchemaFinding(sim, missing[|r| - 1], actual, cutoff, now);
    }
  }

  /** A batch gives no schema result exactly when it has the expected set of columns. */
  lemma NoSchemaDriftIffSameColumns(sim: Fuzzy.Similarity, fmt: Format, expected: seq<string>, actual: seq<string>,
                                    cutoff: real, now: Instant)
    ensures SchemaResults(sim, fmt, expected, actual, cutoff, now) == [] <==>
            (forall c :: c in expected <==> c in actual)
  {
    var missing := MissingColumns(expected, actual);
    var extra := ExtraColumns(expected, actual);
    assert missing == [] <==> forall c :: c in expected ==> c in actual;
    assert extra == [] <==> forall c :: c in actual ==> c in expected;
  }

  // ---- check_data_quality ----

  /** `df.isnull().mean()` of a column; None is pandas' NaN for a batch without rows. */
  function NullRatio(c: Column, rows: nat): (r: Option<real>)
    requires c.nulls <= rows
    ensures r.Some? <==> rows > 0
    ensures r.Some? ==> 0.0 <= r.value <= 1.0 && r.value * rows as real == c.nulls as real
  {
    if rows == 0 then None else Some(c.nulls as real / rows as real)
  }

  /** The severity band of a null ratio. */
  function SeverityOf(ratio: real): (s: DriftSeverity)
  {
    if ratio > 0.5 then Critical else if ratio > 0.25 then Warning else Info
  }

  function Rank(s: DriftSeverity): (n: nat)
    ensures n <= 2
  {
    match s
    case Info => 0
    case Warning => 1
    case Critical => 2
  }

  /** A higher null ratio never gives a lower severity, and the bands meet at 0.25 and 0.5. */
  lemma SeverityMonotone(a: real, b: real)
    requires a <= b
    ensures Rank(SeverityOf(a)) <= Rank(SeverityOf(b))
    ensures SeverityOf(a) == Critical <==> a > 0.5
    ensures SeverityOf(a) == Info <==> a <= 0.25
  {
  }

  /** A column whose null ratio exceeds the threshold. */
  predicate Drifted(c: Column, rows: nat, threshold: real)
    requires c.nulls <= rows
  {
    NullRatio(c, rows).Some? && NullRatio(c, rows).value > threshold
  }

  /** The result for one drifted column. */
  function QualityFinding(fmt: Format, c: Column, rows: nat, threshold: real, now: Instant): (r: DriftResult)
    requires c.nulls <= rows && rows > 0
  {
    var ratio := NullRatio(c, rows).value;
    DriftResult(QualityNulls, SeverityOf(ratio), 1.0 - ratio,
                "Column '" + c.name + "' has " + fmt.percent(ratio) + " null values",
                Nulls(c.name, ratio, threshold, rows, c.nulls), now)
  }

  /** What `check_data_quality` returns for the columns `cols` of a batch of `rows` rows. */
  function QualityResults(fmt: Format, cols: seq<Column>, rows: nat, threshold: real, now: Instant): (r: seq<DriftResult>)
    requires forall i :: 0 <= i < |cols| ==> cols[i].nulls <= rows
    decreases |cols|
  {
    if cols == [] then []
    else
      var init := QualityResults(fmt, cols[..|cols| - 1], rows, threshold, now);
      var c := cols[|cols| - 1];
      if Drifted(c, rows, threshold) then init + [QualityFinding(fmt, c, rows, threshold, now)] else init
  }

  /** The result for a drifted column carries its ratio, its band and confidence 1 - ratio. */
  lemma QualityFindingShape(fmt: Format, c: Column, rows: nat, threshold: real, now: Instant)
    requires c.nulls <= rows && Drifted(c, rows, threshold)
    ensures var r := QualityFinding(fmt, c, rows, threshold, now);
            r.driftType == QualityNulls && r.details.Nulls? && r.details.column == c.name &&
            r.details.ratio == NullRatio(c, rows).value && r.details.ratio > threshold &&
            r.severity == SeverityOf(r.details.ratio) &&
            r.confidence == 1.0 - r.details.ratio &&
            0.0 <= r.confidence <= 1.0
  {
  }

  /**
   * Exactly the columns whose null ratio exceeds the threshold are reported, once
   * each and in column order.
   */
  lemma {:induction false} QualityResultsExactly(fmt: Format, cols: seq<Column>, rows: nat, threshold: real, now: Instant)
    requires forall i :: 0 <= i < |cols| ==> cols[i].nulls <= rows
    ensures var r := QualityResults(fmt, cols, rows, threshold, now);
            |r| <= |cols| &&
            (forall k :: 0 <= k < |r| ==>
               exists i :: 0 <= i < |cols| && Drifted(cols[i], rows, threshold) &&
                           r[k] == QualityFinding(fmt, cols[i], rows, threshold, now)) &&
            (forall i :: 0 <= i < |cols| && Drifted(cols[i], rows, threshold) ==>
               QualityFinding(fmt, cols[i], rows, threshold, now) in r)
    decreases |cols|
  {
    if cols != [] {
      var init := cols[..|cols| - 1];
      var c := cols[|cols| - 1];
      assert forall i :: 0 <= i < |init| ==> init[i] == cols[i];
      QualityResultsExactly(fmt, init, rows, threshold, now);
      var r := QualityResults(fmt, cols, rows, threshold, now);
      var r0 := QualityResults(fmt, init, rows, threshold, now);
      assert r == if Drifted(c, rows, threshold) then r0 + [QualityFinding(fmt, c, rows, threshold, now)] else r0;
      forall k | 0 <= k < |r|
        ensures exists i :: 0 <= i < |cols| && Drifted(cols[i], rows, threshold) &&
                            r[k] == QualityFinding(fmt, cols[i], rows, threshold, now)
      {
        if k < |r0| {
          assert r[k] == r0[k];
          var i :| 0 <= i < |init| && Drifted(init[i], rows, threshold) &&
                   r0[k] == QualityFinding(fmt, init[i], rows, threshold, now);
          assert cols[i] == init[i];
        } else {
          assert r[k] == QualityFinding(fmt, cols[|cols| - 1], rows, threshold, now);
        }
      }
      forall i | 0 <= i < |cols| && Drifted(cols[i], rows, threshold)
        ensures QualityFinding(fmt, cols[i], rows, threshold, now) in r
      {
        if i < |init| {
          assert QualityFinding(fmt, init[i], rows, threshold, now) in r0;
        }
      }
    }
  }

  /** Every quality result is about a drifted column and carries that column's ratio, band and confidence. */
  lemma QualityResultsShape(fmt: Format, cols: seq<Column>, rows: nat, threshold: real, now: Instant)
    requires forall i :: 0 <= i < |cols| ==> cols[i].nulls <= rows
    ensures var r := QualityResults(fmt, cols, rows, threshold, now);
            forall k :: 0 <= k < |r| ==>
              r[k].driftType == QualityNulls && r[k].details.Nulls? &&
              r[k].details.ratio > threshold &&
              r[k].severity == SeverityOf(r[k].details.ratio) &&
              r[k].confidence == 1.0 - r[k].details.ratio &&
              0.0 <= r[k].confidence <= 1.0
  {
    var r := QualityResults(fmt, cols, rows, threshold, now);
    QualityResultsExactly(fmt, cols, rows, threshold, now);
    forall k | 0 <= k < |r|
      ensures r[k].driftType == QualityNulls && r[k].details.Nulls? &&
              r[k].details.ratio > threshold &&
              r[k].severity == SeverityOf(r[k].details.ratio) &&
              r[k].confidence == 1.0 - r[k].details.ratio &&
              0.0 <= r[k].confidence <= 1.0
    {
      var i :| 0 <= i < |cols| && Drifted(cols[i], rows, threshold) &&
               r[k] == QualityFinding(fmt, cols[i], rows, threshold, now);
      QualityFindingShape(fmt, cols[i], rows, threshold, now);
    }
  }

  // ---- check_type_drift ----

  /** `df[col]` for a column name: the first column of that name. */
  function FindColumn(cols: seq<Column>, name: string): (r: Option<Column>)
    ensures r.None? <==> name !in Names(cols)
    ensures r.Some? ==> r.value in cols && r.value.name == name
    decreases |cols|
  {
    if cols == [] then None
    else if cols[0].name == name then Some(cols[0])
    else
      assert Names(cols) == [cols[0].name] + Names(cols[1..]);
      FindColumn(cols[1..], name)
  }

  /** The dtype of the column does not mention the expected type, ignoring (ASCII) case. */
  predicate TypeMismatch(expectedType: string, actualType: string) {
    !Text.Contains(Text.Lower(actualType), Text.Lower(expectedType))
  }

  function TypeFinding(col: string, expectedType: string, actualType: string, now: Instant): (r: DriftResult)
  {
    DriftResult(TypeChange, Warning, 1.0,
                "Column '" + col + "' type changed from '" + expectedType + "' to '" + actualType + "'",
                TypeChanged(col, expectedType, actualType), now)
  }

  /** The finding for one `(column, expected dtype)` entry, if any. */
  function TypeEntryResult(cols: seq<Column>, entry: (string, string), now: Instant): (r: Option<DriftResult>)
  {
    match FindColumn(cols, entry.0)
    case None => None
    case Some(c) => if TypeMismatch(entry.1, c.dtype) then Some(TypeFinding(entry.0, entry.1, c.dtype, now)) else None
  }

  /** The findings for the entries of `expected_types`, in order. */
  function TypeResults(cols: seq<Column>, types: seq<(string, string)>, now: Instant): (r: seq<DriftResult>)
    decreases |types|
  {
    if types == [] then []
    else
      var init := TypeResults(cols, types[..|types| - 1], now);
      match TypeEntryResult(cols, types[|types| - 1], now)
      case Some(f) => init + [f]
      case None => init
  }

  /** What `check_type_drift` returns; no expected types (None or an empty dict) gives nothing. */
  function TypeDriftResults(cols: seq<Column>, expectedTypes: Option<seq<(string, string)>>, now: Instant): (r: seq<DriftResult>)
  {
    match expectedTypes
    case None => []
    case Some(types) => TypeResults(cols, types, now)
  }

  /**
   * Every type result is a WARNING about a present column whose dtype does not
   * mention the expected type, and every such entry gives one; an absent column
   * is never reported.
   */
  lemma {:induction false} TypeResultsSound(cols: seq<Column>, types: seq<(string, string)>, now: Instant)
    ensures var r := TypeResults(cols, types, now);
            |r| <= |types| &&
            forall k :: 0 <= k < |r| ==>
              r[k].driftType == TypeChange && r[k].severity == Warning && r[k].confidence == 1.0 &&
              r[k].details.TypeChanged? &&
              (exists i :: 0 <= i < |types| && types[i] == (r[k].details.column, r[k].details.expectedType)) &&
              FindColumn(cols, r[k].details.column).Some? &&
              FindColumn(cols, r[k].details.column).value.dtype == r[k].details.actualType &&
              TypeMismatch(r[k].details.expectedType, r[k].details.actualType)
    decreases |types|
  {
    if types != [] {
      var init := types[..|types| - 1];
      TypeResultsSound(cols, init, now);
      var r0 := TypeResults(cols, init, now);
      forall k | 0 <= k < |r0|
        ensures exists i :: 0 <= i < |types| && types[i] == (r0[k].details.column, r0[k].details.expectedType)
      {
        var i :| 0 <= i < |init| && init[i] == (r0[k].details.column, r0[k].details.expectedType);
        assert types[i] == init[i];
      }
    }
  }

  /** Every entry naming a present column whose dtype does not mention the expected type gives its result. */
  lemma {:induction false} TypeResultsComplete(cols: seq<Column>, types: seq<(string, string)>, now: Instant)
    ensures var r := TypeResults(cols, types, now);
            forall i :: 0 <= i < |types| && FindColumn(cols, types[i].0).Some? &&
                        TypeMismatch(types[i].1, FindColumn(cols, types[i].0).value.dtype) ==>
              TypeFinding(types[i].0, types[i].1, FindColumn(cols, types[i].0).value.dtype, now) in r
    decreases |types|
  {
    if types != [] {
      var init := types[..|types| - 1];
      TypeResultsComplete(cols, init, now);
      var r := TypeResults(cols, types, now);
      var r0 := TypeResults(cols, init, now);
      assert forall f :: f in r0 ==> f in r;
      forall i | 0 <= i < |types| && FindColumn(cols, types[i].0).Some? &&
                 TypeMismatch(types[i].1, FindColumn(cols, types[i].0).value.dtype)
        ensures TypeFinding(types[i].0, types[i].1, FindColumn(cols, types[i].0).value.dtype, now) in r
      {
        if i < |init| {
          assert types[i] == init[i];
        }
      }
    }
  }

  /** Without expected types the check finds nothing. */
  lemma NoExpectedTypesNoResults(cols: seq<Column>, expectedTypes: Option<seq<(string, string)>>, now: Instant)
    requires expectedTypes.None? || expectedTypes == Some([])
    ensures TypeDriftResults(cols, expectedTypes, now) == []
  {
  }

  // ---- detect_drift ----

  /** `any(r.severity == CRITICAL for r in results)`. */
  function AnyCritical(results: seq<DriftResult>): (b: bool)
    ensures b <==> exists i :: 0 <= i < |results| && results[i].severity == Critical
    decreases |results|
  {
    if results == [] then false
    else
      var b := AnyCritical(results[..|results| - 1]);
      assert forall i :: 0 <= i < |results| - 1 ==> results[..|results| - 1][i] == results[i];
      b || results[|results| - 1].severity == Critical
  }

  /** Some expected column is missing and no present column is close to it. */
  predicate HasUnmatchedMissing(sim: Fuzzy.Similarity, expected: seq<string>, actual: seq<string>, cutoff: real) {
    exists c :: c in MissingColumns(expected, actual) && Fuzzy.CloseMatch(sim, c, Distinct(actual), cutoff).None?
  }

  /** Some column's null ratio exceeds both the threshold and 0.5. */
  predicate HasCriticalNulls(df: DataFrame, threshold: real) {
    exists i :: 0 <= i < |df.columns| && Drifted(df.columns[i], df.rows, threshold) &&
                NullRatio(df.columns[i], df.rows).value > 0.5
  }

  lemma AnyCriticalAppend(a: seq<DriftResult>, b: seq<DriftResult>)
    ensures AnyCritical(a + b) <==> AnyCritical(a) || AnyCritical(b)
  {
    if AnyCritical(b) {
      var k :| 0 <= k < |b| && b[k].severity == Critical;
      assert (a + b)[|a| + k] == b[k];
    }
    if AnyCritical(a) {
      var k :| 0 <= k < |a| && a[k].severity == Critical;
      assert (a + b)[k] == a[k];
    }
  }

  lemma SchemaCritical(sim: Fuzzy.Similarity, fmt: Format, expected: seq<string>, actual: seq<string>,
                       cutoff: real, now: Instant)
    ensures AnyCritical(SchemaResults(sim, fmt, expected, actual, cutoff, now)) <==>
            HasUnmatchedMissing(sim, expected, actual, cutoff)
  {
    var missing := MissingColumns(expected, actual);
    var extra := ExtraColumns(expected, actual);
    var m := MissingResults(sim, missing, actual, cutoff, now);
    var tail := if extra != [] then [ExtraFinding(fmt, extra, now)] else [];
    assert SchemaResults(sim, fmt, expected, actual, cutoff, now) == m + tail;
    AnyCriticalAppend(m, tail);
    assert !AnyCritical(tail);
    if AnyCritical(m) {
      MissingCriticalUnmatched(sim, expected, actual, cutoff, now);
    }
    if HasUnmatchedMissing(sim, expected, actual, cutoff) {
      UnmatchedMissingCritical(sim, expected, actual, cutoff, now);
    }
  }

  lemma MissingCriticalUnmatched(sim: Fuzzy.Similarity, expected: seq<string>, actual: seq<string>, cutoff: real, now: Instant)
    requires AnyCritical(MissingResults(sim, MissingColumns(expected, actual), actual, cutoff, now))
    ensures HasUnmatchedMissing(sim, expected, actual, cutoff)
  {
    var missing := MissingColumns(expected, actual);
    var m := MissingResults(sim, missing, actual, cutoff, now);
    var k :| 0 <= k < |m| && m[k].severity == Critical;
    assert missing[k] in missing;
  }

  lemma UnmatchedMissingCritical(sim: Fuzzy.Similarity, expected: seq<string>, actual: seq<string>, cutoff: real, now: Instant)
    requires HasUnmatchedMissing(sim, expected, actual, cutoff)
    ensures AnyCritical(MissingResults(sim, MissingColumns(expected, actual), actual, cutoff, now))
  {
    var missing := MissingColumns(expected, actual);
    var m := MissingResults(sim, missing, actual, cutoff, now);
    var c :| c in missing && Fuzzy.CloseMatch(sim, c, Distinct(actual), cutoff).None?;
    var k :| 0 <= k < |missing| && missing[k] == c;
    assert m[k].severity == Critical;
  }

  lemma {:induction false} QualityCritical(fmt: Format, df: DataFrame, threshold: real, now: Instant)
    ensures AnyCritical(QualityResults(fmt, df.columns, df.rows, threshold, now)) <==>
            HasCriticalNulls(df, threshold)
    decreases |df.columns|
  {
    if df.columns != [] {
      var init: DataFrame := Frame(df.rows, df.columns[..|df.columns| - 1]);
      var c := df.columns[|df.columns| - 1];
      QualityCritical(fmt, init, threshold, now);
      var q0 := QualityResults(fmt, init.columns, df.rows, threshold, now);
      var tail := if Drifted(c, df.rows, threshold) then [QualityFinding(fmt, c, df.rows, threshold, now)] else [];
      assert QualityResults(fmt, df.columns, df.rows, threshold, now) == q0 + tail;
      AnyCriticalAppend(q0, tail);
      CriticalNullsStep(df, threshold);
    }
  }

  lemma CriticalNullsStep(df: DataFrame, threshold: real)
    requires df.columns != []
    ensures var init := Frame(df.rows, df.columns[..|df.columns| - 1]);
            var c := df.columns[|df.columns| - 1];
            HasCriticalNulls(df, threshold) <==>
              (HasCriticalNulls(init, threshold) || (Drifted(c, df.rows, threshold) && NullRatio(c, df.rows).value > 0.5))
  {
    var init := Frame(df.rows, df.columns[..|df.columns| - 1]);
    assert forall i :: 0 <= i < |init.columns| ==> init.columns[i] == df.columns[i];
  }

  /**
   * A batch has critical drift exactly when an expected column is missing with no
   * close match, or a column's null ratio exceeds both the threshold and 0.5.
   */
  lemma CriticalMeans(sim: Fuzzy.Similarity, fmt: Format, expected: seq<string>, df: DataFrame,
                      nullThreshold: real, cutoff: real, now: Instant)
    ensures AnyCritical(SchemaResults(sim, fmt, expected, Names(df.columns), cutoff, now) +
                        QualityResults(fmt, df.columns, df.rows, nullThreshold, now)) <==>
            HasUnmatchedMissing(sim, expected, Names(df.columns), cutoff) || HasCriticalNulls(df, nullThreshold)
  {
    AnyCriticalAppend(SchemaResults(sim, fmt, expected, Names(df.columns), cutoff, now),
                      QualityResults(fmt, df.columns, df.rows, nullThreshold, now));
    SchemaCritical(sim, fmt, expected, Names(df.columns), cutoff, now);
    QualityCritical(fmt, df, nullThreshold, now);
  }

  // ---- get_drift_summary ----

  /** `counts[k] = counts.get(k, 0) + 1`. */
  function Bump(m: map<string, nat>, k: string): (r: map<string, nat>)
  {
    m[k := (if k in m then m[k] else 0) + 1]
  }

  /** `Bump` for each key in turn, from no counts. */
  function Tally(keys: seq<string>): (m: map<string, nat>)
    decreases |keys|
  {
    if keys == [] then map[] else Bump(Tally(keys[..|keys| - 1]), keys[|keys| - 1])
  }

  /** How many times `k` occurs in `keys`. */
  function Occurrences(keys: seq<string>, k: string): (n: nat)
    ensures n > 0 <==> k in keys
    decreases |keys|
  {
    if keys == [] then 0
    else
      assert keys == keys[..|keys| - 1] + [keys[|keys| - 1]];
      Occurrences(keys[..|keys| - 1], k) + (if keys[|keys| - 1] == k then 1 else 0)
  }

  /** The sum of the counts stored under `universe` (a missing key counts 0). */
  function SumOver(m: map<string, nat>, universe: seq<string>): (n: nat)
    decreases |universe|
  {
    if universe == [] then 0
    else SumOver(m, universe[1..]) + (if universe[0] in m then m[universe[0]] else 0)
  }

  /** The tally holds exactly the keys that occur, each with its number of occurrences. */
  lemma {:induction false} TallyCounts(keys: seq<string>)
    ensures forall k :: k in Tally(keys) <==> k in keys
    ensures forall k :: k in Tally(keys) ==> Tally(keys)[k] == Occurrences(keys, k)
    decreases |keys|
  {
    if keys != [] {
      var init := keys[..|keys| - 1];
      var last := keys[|keys| - 1];
      TallyCounts(init);
      assert keys == init + [last];
      forall k ensures k in Tally(keys) <==> k in keys {
      }
      forall k | k in Tally(keys) ensures Tally(keys)[k] == Occurrences(keys, k) {
        assert Occurrences(keys, k) == Occurrences(init, k) + (if last == k then 1 else 0);
      }
    }
  }

  lemma {:induction false} SumOverBump(m: map<string, nat>, universe: seq<string>, k: string)
    requires NoDuplicates(universe)
    ensures SumOver(Bump(m, k), universe) == SumOver(m, universe) + (if k in universe then 1 else 0)
    decreases |universe|
  {
    if universe != [] {
      SumOverBump(m, universe[1..], k);
      assert forall x :: x in universe <==> x == universe[0] || x in universe[1..];
      assert forall j :: 0 <= j < |universe[1..]| ==> universe[1..][j] == universe[j + 1];
      assert universe[0] !in universe[1..];
    }
  }

  lemma {:induction false} SumOverEmpty(universe: seq<string>)
    ensures SumOver(map[], universe) == 0
    decreases |universe|
  {
    if universe != [] {
      SumOverEmpty(universe[1..]);
    }
  }

  /** When every key belongs to `universe`, the tally's counts over `universe` add up to the number of keys. */
  lemma {:induction false} TallySum(keys: seq<string>, universe: seq<string>)
    requires NoDuplicates(universe)
    requires forall i :: 0 <= i < |keys| ==> keys[i] in universe
    ensures SumOver(Tally(keys), universe) == |keys|
    decreases |keys|
  {
    if keys != [] {
      var init := keys[..|keys| - 1];
      assert forall i :: 0 <= i < |init| ==> init[i] == keys[i];
      var last := keys[|keys| - 1];
      TallySum(init, universe);
      SumOverBump(Tally(init), universe, last);
      assert last in universe;
    } else {
      SumOverEmpty(universe);
    }
  }

  function SeverityKeys(h: seq<DriftResult>): (ks: seq<string>)
    ensures |ks| == |h|
    ensures forall i :: 0 <= i < |h| ==> ks[i] == SeverityValue(h[i].severity)
  {
    seq(|h|, i requires 0 <= i < |h| => SeverityValue(h[i].severity))
  }

  function TypeKeys(h: seq<DriftResult>): (ks: seq<string>)
    ensures |ks| == |h|
    ensures forall i :: 0 <= i < |h| ==> ks[i] == TypeValue(h[i].driftType)
  {
    seq(|h|, i requires 0 <= i < |h| => TypeValue(h[i].driftType))
  }

  lemma KeysStep(h: seq<DriftResult>, i: nat)
    requires i < |h|
    ensures SeverityKeys(h[..i + 1]) == SeverityKeys(h[..i]) + [SeverityValue(h[i].severity)]
    ensures TypeKeys(h[..i + 1]) == TypeKeys(h[..i]) + [TypeValue(h[i].driftType)]
  {
    assert SeverityKeys(h[..i + 1]) == SeverityKeys(h[..i]) + [SeverityValue(h[i].severity)];
    assert TypeKeys(h[..i + 1]) == TypeKeys(h[..i]) + [TypeValue(h[i].driftType)];
  }

  lemma TallyAppend(keys: seq<string>, k: string)
    ensures Tally(keys + [k]) == Bump(Tally(keys), k)
  {
    assert (keys + [k])[..|keys|] == keys;
  }

  /** The summary dictionary; `latest` None stands for the absent `latest_drift` key. */
  datatype Summary = Summary(
    totalIssues: nat,
    bySeverity: map<string, nat>,
    byType: map<string, nat>,
    latest: Option<Instant>)

  /** `get_drift_summary` over the history `h`. */
  function Summarize(h: seq<DriftResult>): (s: Summary)
  {
    if h == [] then Summary(0, map[], map[], None)
    else Summary(|h|, Tally(SeverityKeys(h)), Tally(TypeKeys(h)), Some(h[|h| - 1].timestamp))
  }

  /**
   * The total is the number of results; each count is the number of results with
   * that severity (type); the severity counts and the type counts each add up to
   * the total; an empty history gives 0 and no counts.
   */
  lemma SummaryCounts(h: seq<DriftResult>)
    ensures var s := Summarize(h);
            s.totalIssues == |h| &&
            (forall k :: k in s.bySeverity <==> exists i :: 0 <= i < |h| && SeverityValue(h[i].severity) == k) &&
            (forall k :: k in s.bySeverity ==> s.bySeverity[k] == Occurrences(SeverityKeys(h), k)) &&
            (forall k :: k in s.byType <==> exists i :: 0 <= i < |h| && TypeValue(h[i].driftType) == k) &&
            (forall k :: k in s.byType ==> s.byType[k] == Occurrences(TypeKeys(h), k)) &&
            (h == [] ==> s.bySeverity == map[] && s.byType == map[] && s.latest.None?) &&
            (h != [] ==> s.latest == Some(h[|h| - 1].timestamp))
  {
    if h != [] {
      var sk := SeverityKeys(h);
      var tk := TypeKeys(h);
      TallyCounts(sk);
      TallyCounts(tk);
      forall k ensures k in sk <==> exists i :: 0 <= i < |h| && SeverityValue(h[i].severity) == k {
        if k in sk {
          var i :| 0 <= i < |sk| && sk[i] == k;
        }
      }
      forall k ensures k in tk <==> exists i :: 0 <= i < |h| && TypeValue(h[i].driftType) == k {
        if k in tk {
          var i :| 0 <= i < |tk| && tk[i] == k;
        }
      }
    }
  }

  /** The severity counts and the type counts each add up to the total. */
  lemma SummarySums(h: seq<DriftResult>)
    ensures var s := Summarize(h);
            SumOver(s.bySeverity, SeverityValues) == s.totalIssues &&
            SumOver(s.byType, TypeValues) == s.totalIssues
  {
    if h != [] {
      TallySum(SeverityKeys(h), SeverityValues);
      TallySum(TypeKeys(h), TypeValues);
    } else {
      SumOverEmpty(SeverityValues);
      SumOverEmpty(TypeValues);
    }
  }

  /** Every result the detector can produce has a confidence in [0, 1]. */
  predicate ConfidencesInRange(h: seq<DriftResult>) {
    forall i :: 0 <= i < |h| ==> 0.0 <= h[i].confidence <= 1.0
  }

  lemma SchemaConfidencesInRange(sim: Fuzzy.Similarity, fmt: Format, expected: seq<string>, actual: seq<string>,
                                 cutoff: real, now: Instant)
    ensures ConfidencesInRange(SchemaResults(sim, fmt, expected, actual, cutoff, now))
  {
    var missing := MissingColumns(expected, actual);
    var extra := ExtraColumns(expected, actual);
    var m := MissingResults(sim, missing, actual, cutoff, now);
    var schema := SchemaResults(sim, fmt, expected, actual, cutoff, now);
    assert schema == m + (if extra != [] then [ExtraFinding(fmt, extra, now)] else []);
    forall i | 0 <= i < |schema| ensures 0.0 <= schema[i].confidence <= 1.0 {
      if i < |m| {
        assert schema[i] == SchemaFinding(sim, missing[i], actual, cutoff, now);
      }
    }
  }

  lemma QualityConfidencesInRange(fmt: Format, df: DataFrame, nullThreshold: real, now: Instant)
    ensures ConfidencesInRange(QualityResults(fmt, df.columns, df.rows, nullThreshold, now))
  {
    QualityResultsShape(fmt, df.columns, df.rows, nullThreshold, now);
  }

  lemma TypeConfidencesInRange(df: DataFrame, expectedTypes: Option<seq<(string, string)>>, now: Instant)
    ensures ConfidencesInRange(TypeDriftResults(df.columns, expectedTypes, now))
  {
    if expectedTypes.Some? {
      TypeResultsSound(df.columns, expectedTypes.value, now);
    }
  }

  lemma AppendAssociative(a: seq<DriftResult>, b: seq<DriftResult>, c: seq<DriftResult>)
    ensures (a + b) + c == a + (b + c)
  {
  }

  /** `DriftDetector`: the configuration and the history of every result reported so far. */
  class DriftDetector {
    const expectedColumns: seq<string>
    const nullThreshold: real
    const fuzzyThreshold: real
    var history: seq<DriftResult>

    constructor (expectedColumns: seq<string>, nullThreshold: real, fuzzyThreshold: real)
      ensures this.expectedColumns == expectedColumns
      ensures this.nullThreshold == nullThreshold && this.fuzzyThreshold == fuzzyThreshold
      ensures history == []
    {
      this.expectedColumns := expectedColumns;
      this.nullThreshold := nullThreshold;
      this.fuzzyThreshold := fuzzyThreshold;
      history := [];
    }

    /** `check_schema`: reports and records missing, renamed and extra columns. */
    method CheckSchema(sim: Fuzzy.Similarity, fmt: Format, df: DataFrame, now: Instant) returns (results: seq<DriftResult>)
      modifies this
      ensures results == SchemaResults(sim, fmt, expectedColumns, Names(df.columns), fuzzyThreshold, now)
      ensures history == old(history) + results
    {
      var actual := Names(df.columns);
      var missing := MissingColumns(expectedColumns, actual);
      results := [];
      for i := 0 to |missing|
        invariant results == MissingResults(sim, missing[..i], actual, fuzzyThreshold, now)
      {
        assert missing[..i + 1][..i] == missing[..i];
        results := results + [SchemaFinding(sim, missing[i], actual, fuzzyThreshold, now)];
      }
      assert missing[..|missing|] == missing;
      var extra := ExtraColumns(expectedColumns, actual);
      if extra != [] {
        results := results + [ExtraFinding(fmt, extra, now)];
      }
      history := history + results;
    }

    /** `check_data_quality`: reports and records the columns whose null ratio exceeds the threshold. */
    method CheckDataQuality(fmt: Format, df: DataFrame, now: Instant) returns (results: seq<DriftResult>)
      modifies this
      ensures results == QualityResults(fmt, df.columns, df.rows, nullThreshold, now)
      ensures history == old(history) + results
    {
      results := [];
      for i := 0 to |df.columns|
        invariant results == QualityResults(fmt, df.columns[..i], df.rows, nullThreshold, now)
      {
        assert df.columns[..i + 1][..i] == df.columns[..i];
        var c := df.columns[i];
        if Drifted(c, df.rows, nullThreshold) {
          results := results + [QualityFinding(fmt, c, df.rows, nullThreshold, now)];
        }
      }
      assert df.columns[..|df.columns|] == df.columns;
      history := history + results;
    }

    /** `check_type_drift`: without expected types it returns at once and records nothing. */
    method CheckTypeDrift(df: DataFrame, expectedTypes: Option<seq<(string, string)>>, now: Instant) returns (results: seq<DriftResult>)
      modifies this
      ensures results == TypeDriftResults(df.columns, expectedTypes, now)
      ensures history == old(history) + results
    {
      if expectedTypes.None? || expectedTypes.value == [] {
        return [];
      }
      var types := expectedTypes.value;
      results := [];
      for i := 0 to |types|
        invariant results == TypeResults(df.columns, types[..i], now)
      {
        assert types[..i + 1][..i] == types[..i];
        var (col, expectedType) := types[i];
        var column := FindColumn(df.columns, col);
        if column.Some? && TypeMismatch(expectedType, column.value.dtype) {
          results := results + [TypeFinding(col, expectedType, column.value.dtype, now)];
        }
      }
      assert types[..|types|] == types;
      history := history + results;
    }

    /** `detect_drift`: the schema results, then the quality results, and whether any is critical. */
    method DetectDrift(sim: Fuzzy.Similarity, fmt: Format, df: DataFrame, now: Instant)
      returns (hasCritical: bool, all: seq<DriftResult>)
      modifies this
      ensures all == SchemaResults(sim, fmt, expectedColumns, Names(df.columns), fuzzyThreshold, now) +
                     QualityResults(fmt, df.columns, df.rows, nullThreshold, now)
      ensures hasCritical <==> exists i :: 0 <= i < |all| && all[i].severity == Critical
      ensures history == old(history) + all
    {
      ghost var h0 := history;
      var schema := CheckSchema(sim, fmt, df, now);
      var quality := CheckDataQuality(fmt, df, now);
      all := schema + quality;
      AppendAssociative(h0, schema, quality);
      hasCritical := AnyCritical(all);
    }

    /** `get_drift_summary`: counts the history by severity and by type. */
    method GetDriftSummary() returns (s: Summary)
      ensures s == Summarize(history)
    {
      if history == [] {
        return Summary(0, map[], map[], None);
      }
      var bySeverity: map<string, nat> := map[];
      var byType: map<string, nat> := map[];
      for i := 0 to |history|
        invariant bySeverity == Tally(SeverityKeys(history[..i]))
        invariant byType == Tally(TypeKeys(history[..i]))
      {
        var sev := SeverityValue(history[i].severity);
        var kind := TypeValue(history[i].driftType);
        KeysStep(history, i);
        TallyAppend(SeverityKeys(history[..i]), sev);
        TallyAppend(TypeKeys(history[..i]), kind);
        bySeverity := Bump(bySeverity, sev);
        byType := Bump(byType, kind);
      }
      assert history[..|history|] == history;
      s := Summary(|history|, bySeverity, byType, Some(history[|history| - 1].timestamp));
    }

    /** `clear_history`. */
    method ClearHistory()
      modifies this
      ensures history == []
    {
      history := [];
    }
  }
}
