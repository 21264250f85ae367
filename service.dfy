/**
 * The ETL service (app/ingestion/service.py): one run per source creates a RUNNING job
 * record, reads the checkpoint the last successful run left, extracts, stores the raw
 * payloads, resolves every candidate to a canonical coin, de-duplicates and upserts the
 * prices, then records the outcome on the job.
 *
 * The database is the in-memory `Tables`; a session's transaction is the tables it
 * started from, kept for the rollback. Clocks are parameters, and the text Python gives
 * an exception that is not one of the application's own is a parameter too.
 */
module Service {
  import opened Wrappers
  import opened Json
  import opened Models
  import opened Database
  import Store
  import opened Resolution
  import Extraction
  import Metrics
  import Library
  import Gecko = CoinGecko
  import Paprika = CoinPaprika
  import CsvExtractor
  import Text

  // ---- Errors ----

  /** What can end a run: an extraction failure, a database error, or a Python error. */
  datatype RunError =
    | ExtractFailed(failure: Extraction.Failure)
    | DbFailed(error: DbError)
    | Crashed(crash: Extraction.Crash)  // AttributeError from `_build_source_id_map`
    | NotText(v: Value)                 // a source id the driver refuses because it is not text

  /** `str(e)`: the message of the application's exceptions, foreign text for the rest. */
  function ErrorText(describe: RunError -> string, e: RunError): (s: string)
    ensures e.ExtractFailed? ==> s == e.failure.message
  {
    if e.ExtractFailed? then e.failure.message else describe(e)
  }

  // ---- _build_source_id_map ----

  /**
   * The entry one raw item adds to the map: `(symbol, source_id)` when both are truthy,
   * nothing otherwise, or the AttributeError that `.get` on a non-dict or `.upper()` on
   * a non-string raises.
   */
  function SourceIdEntry(source: DataSource, item: Value): (r: Result<Option<(string, Value)>, Extraction.Crash>)
    ensures r.Ok? ==> item.Dict?
    ensures r.Ok? && r.value.Some? ==> Truthy(r.value.value.1) && r.value.value.0 != []
  {
    if !item.Dict? then Err(Extraction.NoAttribute(item, "get"))
    else
      var f := item.fields;
      var (sid, sym) :=
        if source == Csv then
          var ticker := GetOr(f, "ticker", Null);
          (CsvExtractor.Or(ticker, GetOr(f, "symbol", Null)), CsvExtractor.Or(ticker, GetOr(f, "symbol", Str(""))))
        else (GetOr(f, "id", Null), GetOr(f, "symbol", Str("")));
      if !sym.Str? then Err(Extraction.NoAttribute(sym, "upper"))
      else
        var symbol := Text.Upper(sym.s);
        if Truthy(sid) && symbol != [] then Ok(Some((symbol, sid))) else Ok(None)
  }

  type Entry = Result<Option<(string, Value)>, Extraction.Crash>

  /** Every item's entry, in order. */
  function Entries(source: DataSource, raw: seq<Value>): (r: seq<Entry>)
    ensures |r| == |raw| && forall i :: 0 <= i < |raw| ==> r[i] == SourceIdEntry(source, raw[i])
  {
    seq(|raw|, i requires 0 <= i < |raw| => SourceIdEntry(source, raw[i]))
  }

  /** The entries assigned in turn, so a later one overwrites; the first error stops the loop. */
  function Assemble(es: seq<Entry>): (r: Result<map<string, Value>, Extraction.Crash>)
    decreases |es|
  {
    if es == [] then Ok(map[])
    else
      match Assemble(es[..|es| - 1])
      case Err(e) => Err(e)
      case Ok(m) =>
        match es[|es| - 1]
        case Err(e) => Err(e)
        case Ok(None) => Ok(m)
        case Ok(Some((k, v))) => Ok(m[k := v])
  }

  /** The map the loop builds. */
  function SourceIdMap(source: DataSource, raw: seq<Value>): (r: Result<map<string, Value>, Extraction.Crash>)
  {
    Assemble(Entries(source, raw))
  }

  predicate EntryFor(e: Entry, k: string) {
    e.Ok? && e.value.Some? && e.value.value.0 == k
  }

  /** The entry at `i` is the last one for `k`. */
  predicate LastEntryFor(es: seq<Entry>, i: nat, k: string)
    requires i < |es|
  {
    EntryFor(es[i], k) && forall j :: i < j < |es| ==> !EntryFor(es[j], k)
  }

  /**
   * Assembling fails exactly when some entry is an error; otherwise its keys are the
   * symbols some entry records, each holding the value of the last entry for it.
   */
  lemma AssembleLastWins(es: seq<Entry>)
    ensures Assemble(es).Err? <==> exists i :: 0 <= i < |es| && es[i].Err?
    ensures var r := Assemble(es);
            r.Ok? ==>
              (forall k :: k in r.value <==> exists i :: 0 <= i < |es| && LastEntryFor(es, i, k)) &&
              (forall i, k :: 0 <= i < |es| && LastEntryFor(es, i, k) ==>
                 k in r.value && r.value[k] == es[i].value.value.1)
  {
    AssembleErr(es);
    if Assemble(es).Ok? {
      AssembleOk(es);
    }
  }

  lemma {:induction false} AssembleErr(es: seq<Entry>)
    ensures Assemble(es).Err? <==> exists i :: 0 <= i < |es| && es[i].Err?
    decreases |es|
  {
    if es != [] {
      var n := |es| - 1;
      var init := es[..n];
      AssembleErr(init);
      if Assemble(init).Err? {
        var i :| 0 <= i < n && init[i].Err?;
        assert es[i].Err?;
      } else if Assemble(es).Ok? {
        forall i | 0 <= i < |es| ensures es[i].Ok? {
          if i < n {
            assert es[i] == init[i];
          }
        }
      }
    }
  }

  lemma AssembleOk(es: seq<Entry>)
    requires Assemble(es).Ok?
    ensures var r := Assemble(es).value;
            (forall k :: k in r <==> exists i :: 0 <= i < |es| && LastEntryFor(es, i, k)) &&
            (forall i, k :: 0 <= i < |es| && LastEntryFor(es, i, k) ==> k in r && r[k] == es[i].value.value.1)
  {
    forall k ensures k in Assemble(es).value <==> exists i :: 0 <= i < |es| && LastEntryFor(es, i, k) {
      AssembleKeys(es, k);
    }
    forall i, k | 0 <= i < |es| && LastEntryFor(es, i, k)
      ensures k in Assemble(es).value && Assemble(es).value[k] == es[i].value.value.1
    {
      AssembleValue(es, i, k);
    }
  }

  /** An entry of the prefix is the last for its key in `es` when the final entry is for another key. */
  lemma LastEntryForPrefix(es: seq<Entry>, i: nat, k: string)
    requires i < |es| - 1
    ensures LastEntryFor(es, i, k) <==> LastEntryFor(es[..|es| - 1], i, k) && !EntryFor(es[|es| - 1], k)
  {
    var init := es[..|es| - 1];
    assert init[i] == es[i];
    assert forall j :: i < j < |init| ==> init[j] == es[j];
  }

  lemma {:induction false} AssembleKeys(es: seq<Entry>, k: string)
    requires Assemble(es).Ok?
    ensures k in Assemble(es).value <==> exists i :: 0 <= i < |es| && LastEntryFor(es, i, k)
    decreases |es|
  {
    if es != [] {
      var n := |es| - 1;
      var init := es[..n];
      var e := es[n];
      assert Assemble(init).Ok? && e.Ok?;
      AssembleKeys(init, k);
      var m := Assemble(init).value;
      var r := Assemble(es).value;
      assert r == if e.value.Some? then m[e.value.value.0 := e.value.value.1] else m;
      if EntryFor(e, k) {
        assert LastEntryFor(es, n, k);
      } else {
        assert k in r <==> k in m;
        if k in m {
          var i :| 0 <= i < n && LastEntryFor(init, i, k);
          LastEntryForPrefix(es, i, k);
        }
        if exists i :: 0 <= i < |es| && LastEntryFor(es, i, k) {
          var i :| 0 <= i < |es| && LastEntryFor(es, i, k);
          LastEntryForPrefix(es, i, k);
        }
      }
    }
  }

  lemma {:induction false} AssembleValue(es: seq<Entry>, i: nat, k: string)
    requires Assemble(es).Ok? && i < |es| && LastEntryFor(es, i, k)
    ensures k in Assemble(es).value && Assemble(es).value[k] == es[i].value.value.1
    decreases |es|
  {
    var n := |es| - 1;
    var init := es[..n];
    var e := es[n];
    assert Assemble(init).Ok? && e.Ok?;
    var m := Assemble(init).value;
    var r := Assemble(es).value;
    assert r == if e.value.Some? then m[e.value.value.0 := e.value.value.1] else m;
    if i < n {
      LastEntryForPrefix(es, i, k);
      AssembleValue(init, i, k);
    }
  }

  /**
   * `_build_source_id_map` fails exactly when some item fails; otherwise its keys are
   * non-empty symbols that some item records, each holding the truthy source id of the
   * last item that records it.
   */
  lemma SourceIdMapLastWins(source: DataSource, raw: seq<Value>)
    ensures SourceIdMap(source, raw).Err? <==> exists i :: 0 <= i < |raw| && SourceIdEntry(source, raw[i]).Err?
    ensures var r := SourceIdMap(source, raw);
            var es := Entries(source, raw);
            r.Ok? ==>
              (forall k :: k in r.value ==> k != [] && Truthy(r.value[k])) &&
              (forall k :: k in r.value <==> exists i :: 0 <= i < |raw| && LastEntryFor(es, i, k)) &&
              (forall i, k :: 0 <= i < |raw| && LastEntryFor(es, i, k) ==>
                 k in r.value && r.value[k] == SourceIdEntry(source, raw[i]).value.value.1)
  {
    var es := Entries(source, raw);
    AssembleLastWins(es);
    var r := SourceIdMap(source, raw);
    if r.Ok? {
      forall k | k in r.value ensures k != [] && Truthy(r.value[k]) {
        var i :| 0 <= i < |raw| && LastEntryFor(es, i, k);
      }
    }
  }

  /** `_build_source_id_map`: the loop over the raw items. */
  method BuildSourceIdMap(source: DataSource, raw: seq<Value>) returns (r: Result<map<string, Value>, Extraction.Crash>)
    ensures r == SourceIdMap(source, raw)
  {
    var m: map<string, Value> := map[];
    for i := 0 to |raw|
      invariant Assemble(Entries(source, raw)[..i]) == Ok(m)
    {
      var es := Entries(source, raw);
      assert es[..i + 1][..i] == es[..i];
      var entry := SourceIdEntry(source, raw[i]);
      if entry.Err? {
        AssembleFailsOnward(es, i + 1);
        return Err(entry.error);
      }
      if entry.value.Some? {
        m := m[entry.value.value.0 := entry.value.value.1];
      }
    }
    assert Entries(source, raw)[..|raw|] == Entries(source, raw);
    return Ok(m);
  }

  /** Once a prefix fails, so does every longer prefix, with the same error. */
  lemma {:induction false} AssembleFailsOnward(es: seq<Entry>, n: nat)
    requires n <= |es| && Assemble(es[..n]).Err?
    ensures Assemble(es) == Assemble(es[..n])
    decreases |es| - n
  {
    if n < |es| {
      assert es[..n + 1][..n] == es[..n];
      AssembleFailsOnward(es, n + 1);
    } else {
      assert es[..n] == es;
    }
  }

  /** A record's source id: the map's entry for its symbol, or else the symbol itself. */
  function SourceIdFor(m: map<string, Value>, c: Candidate): (r: Value)
    ensures c.symbol !in m ==> r == Str(c.symbol)
    ensures c.symbol in m && Truthy(m[c.symbol]) ==> r == m[c.symbol]
  {
    var sid := if c.symbol in m then m[c.symbol] else Null;
    if Truthy(sid) then sid else Str(c.symbol)
  }

  // ---- De-duplication ----

  /** A resolved record: its coin id and the candidate. */
  type Pair = (nat, Candidate)

  /** The de-duplication key `(coin_id, timestamp)`. */
  predicate SameKey(a: Pair, b: Pair) {
    a.0 == b.0 && a.1.timestamp == b.1.timestamp
  }

  /** Where the dict already holds `p`'s key. */
  function KeyIndex(acc: seq<Pair>, p: Pair): (r: Option<nat>)
    ensures r.Some? ==> r.value < |acc| && SameKey(acc[r.value], p)
    ensures r.None? ==> forall i :: 0 <= i < |acc| ==> !SameKey(acc[i], p)
    decreases |acc|
  {
    if acc == [] then None
    else if SameKey(acc[|acc| - 1], p) then Some(|acc| - 1)
    else KeyIndex(acc[..|acc| - 1], p)
  }

  /** `d[key] = value`: a present key keeps its place and takes the new value; a new key is appended. */
  function Assign(acc: seq<Pair>, p: Pair): (r: seq<Pair>)
  {
    match KeyIndex(acc, p)
    case Some(i) => acc[i := p]
    case None => acc + [p]
  }

  /** `list({(coin_id, r.timestamp): (coin_id, r) for coin_id, r in resolved}.values())`. */
  function Dedup(pairs: seq<Pair>): (r: seq<Pair>)
    decreases |pairs|
  {
    if pairs == [] then [] else Assign(Dedup(pairs[..|pairs| - 1]), pairs[|pairs| - 1])
  }

  predicate KeysDistinct(ps: seq<Pair>) {
    forall i, j :: 0 <= i < j < |ps| ==> !SameKey(ps[i], ps[j])
  }

  /** `pairs[i]` is the last pair with its key. */
  predicate LastOfKey(pairs: seq<Pair>, i: nat)
    requires i < |pairs|
  {
    forall j :: i < j < |pairs| ==> !SameKey(pairs[j], pairs[i])
  }

  /** What one assignment leaves: `acc` with the new pair in, and nothing else changed. */
  predicate AssignedFrom(acc: seq<Pair>, p: Pair, r: seq<Pair>) {
    |acc| <= |r| <= |acc| + 1 &&
    KeysDistinct(r) &&
    (exists j :: 0 <= j < |r| && r[j] == p) &&
    (forall i :: 0 <= i < |acc| ==> HasKeyOf(r, acc[i])) &&
    (forall j :: 0 <= j < |r| ==> r[j] == p || (j < |acc| && r[j] == acc[j] && !SameKey(acc[j], p)))
  }

  /** Some pair of `r` has `q`'s key. */
  predicate HasKeyOf(r: seq<Pair>, q: Pair) {
    exists j :: 0 <= j < |r| && SameKey(r[j], q)
  }

  /** Assigning a key the dict holds replaces that pair in its place. */
  lemma AssignReplaces(acc: seq<Pair>, p: Pair, x: nat)
    requires KeysDistinct(acc) && x < |acc| && SameKey(acc[x], p)
    ensures AssignedFrom(acc, p, acc[x := p])
  {
    var r := acc[x := p];
    assert r[x] == p;
    forall i | 0 <= i < |acc| ensures HasKeyOf(r, acc[i]) {
      if i == x {
        assert SameKey(r[x], acc[i]);
      } else {
        assert SameKey(r[i], acc[i]);
      }
    }
    forall j | 0 <= j < |r| ensures r[j] == p || (j < |acc| && r[j] == acc[j] && !SameKey(acc[j], p)) {
      if j != x {
        assert !SameKey(acc[j], acc[x]);
      }
    }
    forall i, j | 0 <= i < j < |r| ensures !SameKey(r[i], r[j]) {
      assert !SameKey(acc[i], acc[j]);
    }
  }

  /** Assigning a new key appends the pair. */
  lemma AssignAppends(acc: seq<Pair>, p: Pair)
    requires KeysDistinct(acc) && forall i :: 0 <= i < |acc| ==> !SameKey(acc[i], p)
    ensures AssignedFrom(acc, p, acc + [p])
  {
    var r := acc + [p];
    assert r[|acc|] == p;
    forall i | 0 <= i < |acc| ensures HasKeyOf(r, acc[i]) {
      assert SameKey(r[i], acc[i]);
    }
  }

  lemma AssignShape(acc: seq<Pair>, p: Pair)
    requires KeysDistinct(acc)
    ensures AssignedFrom(acc, p, Assign(acc, p))
  {
    match KeyIndex(acc, p) {
      case Some(x) => AssignReplaces(acc, p, x);
      case None => AssignAppends(acc, p);
    }
  }

  lemma {:induction false} DedupDistinct(pairs: seq<Pair>)
    ensures KeysDistinct(Dedup(pairs)) && |Dedup(pairs)| <= |pairs|
    decreases |pairs|
  {
    if pairs != [] {
      var n := |pairs| - 1;
      DedupDistinct(pairs[..n]);
      AssignShape(Dedup(pairs[..n]), pairs[n]);
    }
  }

  /** An assignment loses no key and adds its own. */
  lemma AssignKeepsKeys(acc: seq<Pair>, p: Pair, q: Pair)
    requires KeysDistinct(acc)
    ensures HasKeyOf(Assign(acc, p), p)
    ensures HasKeyOf(acc, q) ==> HasKeyOf(Assign(acc, p), q)
  {
    var r := Assign(acc, p);
    AssignShape(acc, p);
    var x :| 0 <= x < |r| && r[x] == p;
    assert SameKey(r[x], p);
    if HasKeyOf(acc, q) {
      var j :| 0 <= j < |acc| && SameKey(acc[j], q);
      assert HasKeyOf(r, acc[j]);
      var j' :| 0 <= j' < |r| && SameKey(r[j'], acc[j]);
      assert SameKey(r[j'], q);
    }
  }

  lemma {:induction false} DedupCovers(pairs: seq<Pair>)
    ensures forall i :: 0 <= i < |pairs| ==> HasKeyOf(Dedup(pairs), pairs[i])
    decreases |pairs|
  {
    if pairs != [] {
      var n := |pairs| - 1;
      var init := pairs[..n];
      DedupCovers(init);
      DedupDistinct(init);
      forall i | 0 <= i < |pairs| ensures HasKeyOf(Dedup(pairs), pairs[i]) {
        AssignKeepsKeys(Dedup(init), pairs[n], pairs[i]);
        if i < n {
          assert init[i] == pairs[i];
        }
      }
    }
  }

  /** Every pair of `r` is one of `pairs` that no later pair with the same key follows. */
  predicate KeptLast(r: seq<Pair>, pairs: seq<Pair>) {
    forall j :: 0 <= j < |r| ==> exists i :: 0 <= i < |pairs| && r[j] == pairs[i] && LastOfKey(pairs, i)
  }

  lemma {:induction false} DedupLast(pairs: seq<Pair>)
    ensures KeptLast(Dedup(pairs), pairs)
    decreases |pairs|
  {
    if pairs != [] {
      var n := |pairs| - 1;
      var init := pairs[..n];
      var p := pairs[n];
      DedupLast(init);
      DedupDistinct(init);
      AssignShape(Dedup(init), p);
      DedupLastStep(pairs, init, p, Dedup(init), Dedup(pairs));
    }
  }

  lemma DedupLastStep(pairs: seq<Pair>, init: seq<Pair>, p: Pair, acc: seq<Pair>, r: seq<Pair>)
    requires pairs != [] && init == pairs[..|pairs| - 1] && p == pairs[|pairs| - 1]
    requires KeptLast(acc, init) && AssignedFrom(acc, p, r)
    ensures KeptLast(r, pairs)
  {
    forall j | 0 <= j < |r| ensures exists i :: 0 <= i < |pairs| && r[j] == pairs[i] && LastOfKey(pairs, i) {
      LastAfterAssign(pairs, init, p, acc, r, j);
    }
  }

  /** A pair kept by one more assignment is the last of its key among the pairs seen so far. */
  lemma LastAfterAssign(pairs: seq<Pair>, init: seq<Pair>, p: Pair, acc: seq<Pair>, r: seq<Pair>, j: nat)
    requires pairs != [] && init == pairs[..|pairs| - 1] && p == pairs[|pairs| - 1]
    requires KeptLast(acc, init) && AssignedFrom(acc, p, r) && j < |r|
    ensures exists i :: 0 <= i < |pairs| && r[j] == pairs[i] && LastOfKey(pairs, i)
  {
    if r[j] == p {
      assert pairs[|init|] == p;
      assert LastOfKey(pairs, |init|);
    } else {
      var i :| 0 <= i < |init| && acc[j] == init[i] && LastOfKey(init, i);
      assert pairs[i] == init[i];
      forall k | i < k < |pairs| ensures !SameKey(pairs[k], pairs[i]) {
        if k < |init| {
          assert pairs[k] == init[k];
        }
      }
    }
  }

  /**
   * De-duplication keeps one pair per key, never more pairs than it was given, every
   * key that occurs, and for each key the last pair with it.
   */
  lemma DedupKeepsLast(pairs: seq<Pair>)
    ensures var r := Dedup(pairs);
            KeysDistinct(r) && |r| <= |pairs| &&
            (forall i :: 0 <= i < |pairs| ==> HasKeyOf(r, pairs[i])) &&
            (forall j :: 0 <= j < |r| ==> exists i :: 0 <= i < |pairs| && r[j] == pairs[i] && LastOfKey(pairs, i))
  {
    DedupDistinct(pairs);
    DedupCovers(pairs);
    DedupLast(pairs);
  }

  /** The row proposed for a resolved record: its coin id, the candidate's values, and the ingestion time. */
  function PriceRowOf(p: Pair, ingestedAt: Instant): (r: PriceRow)
    ensures r.coinId == Some(p.0) && r.timestamp == p.1.timestamp && r.symbol == p.1.symbol
  {
    PriceRow(Some(p.0), p.1.symbol, p.1.priceUsd, p.1.marketCap, p.1.volume24h, p.1.source, ingestedAt, p.1.timestamp)
  }

  /** The `values` list built from the de-duplicated records. */
  function Values(ps: seq<Pair>, ingestedAt: Instant): (r: seq<PriceRow>)
    ensures |r| == |ps| && forall i :: 0 <= i < |ps| ==> r[i] == PriceRowOf(ps[i], ingestedAt)
  {
    seq(|ps|, i requires 0 <= i < |ps| => PriceRowOf(ps[i], ingestedAt))
  }

  /**
   * Distinct de-duplication keys give rows with distinct `(coin_id, timestamp)`, hence
   * distinct index keys, so the upsert never touches a row twice.
   */
  lemma ValuesKeysUnique(ps: seq<Pair>, ingestedAt: Instant)
    requires KeysDistinct(ps)
    ensures CoinTimestampsUnique(Values(ps, ingestedAt))
    ensures IndexKeysUnique(Values(ps, ingestedAt))
  {
    var r := Values(ps, ingestedAt);
    forall i, j | 0 <= i < j < |r| ensures !SameCoinTimestamp(r[i], r[j]) {
      assert !SameKey(ps[i], ps[j]);
    }
    CoinTimestampsGiveIndexKeys(r);
  }

  // ---- Job records ----

  /** What `_update_job_status` stores as the error: over 990 characters, the first 990 and "...". */
  function Truncated(message: Option<string>): (r: Option<string>)
  {
    match message
    case None => None
    case Some(s) => if |s| > 990 then Some(s[..990] + "...") else Some(s)
  }

  /** A stored message fits the 1000-character column; a short one is kept, a long one keeps its start. */
  lemma TruncatedFits(message: Option<string>)
    ensures var r := Truncated(message);
            r.Some? <==> message.Some?
    ensures message.Some? ==>
              var s := message.value;
              var r := Truncated(message).value;
              |r| <= 993 < ErrorMessageWidth &&
              (|s| <= 990 ==> r == s) &&
              (|s| > 990 ==> |r| == 993 && r[..990] == s[..990] && r[990..] == "...")
  {
    if message.Some? && |message.value| > 990 {
      var s := message.value;
      assert (s[..990] + "...")[..990] == s[..990];
      assert (s[..990] + "...")[990..] == "...";
    }
  }

  /** `_update_job_status`: the job row with the given id takes the outcome and the completion time. */
  function UpdateJob(t: Tables, id: nat, status: EtlStatus, recordsProcessed: nat,
                     checkpoint: Option<Instant>, error: Option<string>, completedAt: Instant): (r: Tables)
    ensures r.(jobs := t.jobs) == t && |r.jobs| == |t.jobs|
    ensures JobIndex(t.jobs, id).Some? ==>
              var i := JobIndex(t.jobs, id).value;
              r.jobs == t.jobs[i := t.jobs[i].(status := status, recordsProcessed := recordsProcessed,
                                              completedAt := Some(completedAt), lastProcessed := checkpoint,
                                              errorMessage := Truncated(error))]
  {
    match JobIndex(t.jobs, id)
    case None => t
    case Some(i) =>
      t.(jobs := t.jobs[i := t.jobs[i].(status := status, recordsProcessed := recordsProcessed,
                                        completedAt := Some(completedAt), lastProcessed := checkpoint,
                                        errorMessage := Truncated(error))])
  }

  /** Recording an outcome keeps the database consistent and every stored message within its column. */
  lemma UpdateJobConsistent(t: Tables, id: nat, status: EtlStatus, recordsProcessed: nat,
                            checkpoint: Option<Instant>, error: Option<string>, completedAt: Instant)
    requires Consistent(t)
    ensures Consistent(UpdateJob(t, id, status, recordsProcessed, checkpoint, error, completedAt))
    ensures JobIndex(t.jobs, id).Some? ==>
              JobFits(UpdateJob(t, id, status, recordsProcessed, checkpoint, error, completedAt).jobs[JobIndex(t.jobs, id).value])
  {
    TruncatedFits(error);
  }

  // ---- The checkpoint ----

  /**
   * The service as written, or with the three repairs the model proposes: the
   * checkpoint query also skips rows with no checkpoint, a failed run drops the
   * resolver's caches, and the upsert names the `(coin_id, source, timestamp)` target.
   */
  datatype Fixes = AsWritten | Corrected

  /** The conflict target the upsert names. */
  function TargetOf(fx: Fixes): (g: ConflictTarget)
    ensures HasArbiter(g) <==> fx.Corrected?
  {
    if fx.Corrected? then CoinSourceTimestamp else CoinTimestamp
  }

  /** Which job rows the checkpoint query reads. */

  predicate Selected(fx: Fixes, j: EtlJob, source: DataSource) {
    j.source == source && j.status == Success && (fx.Corrected? ==> j.lastProcessed.Some?)
  }

  /** `ORDER BY completed_at DESC`: PostgreSQL puts NULLs first in descending order. */
  predicate NoEarlier(a: Option<Instant>, b: Option<Instant>) {
    a.None? || (b.Some? && a.value >= b.value)
  }

  /** The first row of the descending order: the selected row completed last (the earliest such row on a tie). */
  function Latest(fx: Fixes, jobs: seq<EtlJob>, source: DataSource): (r: Option<EtlJob>)
    ensures r.None? <==> forall i :: 0 <= i < |jobs| ==> !Selected(fx, jobs[i], source)
    ensures r.Some? ==> r.value in jobs && Selected(fx, r.value, source) &&
                        forall i :: 0 <= i < |jobs| && Selected(fx, jobs[i], source) ==>
                          NoEarlier(r.value.completedAt, jobs[i].completedAt)
    decreases |jobs|
  {
    if jobs == [] then None
    else
      var rest := Latest(fx, jobs[..|jobs| - 1], source);
      var j := jobs[|jobs| - 1];
      assert forall i :: 0 <= i < |jobs| - 1 ==> jobs[i] == jobs[..|jobs| - 1][i];
      if !Selected(fx, j, source) then rest
      else if rest.Some? && NoEarlier(rest.value.completedAt, j.completedAt) then rest
      else Some(j)
  }

  /** `get_last_processed_timestamp`: the checkpoint of that row, None when there is none. */
  function ReadCheckpoint(fx: Fixes, jobs: seq<EtlJob>, source: DataSource): (r: Option<Instant>)
  {
    match Latest(fx, jobs, source)
    case None => None
    case Some(j) => j.lastProcessed
  }

  /** Which row is latest depends only on the selected rows. */
  lemma {:induction false} LatestIgnores(fx: Fixes, jobs: seq<EtlJob>, jobs': seq<EtlJob>, source: DataSource)
    requires |jobs| == |jobs'|
    requires forall i :: 0 <= i < |jobs| ==> Selected(fx, jobs[i], source) == Selected(fx, jobs'[i], source)
    requires forall i :: 0 <= i < |jobs| && Selected(fx, jobs[i], source) ==> jobs[i] == jobs'[i]
    ensures Latest(fx, jobs, source) == Latest(fx, jobs', source)
    decreases |jobs|
  {
    if jobs != [] {
      var n := |jobs| - 1;
      LatestIgnores(fx, jobs[..n], jobs'[..n], source);
    }
  }

  /** A run that does not end in success never moves the checkpoint: neither its RUNNING row nor its FAILURE. */
  lemma FailedRunsKeepCheckpoint(fx: Fixes, jobs: seq<EtlJob>, i: nat, j: EtlJob, source: DataSource)
    requires i < |jobs| && jobs[i].status != Success && j.status != Success
    ensures ReadCheckpoint(fx, jobs[i := j], source) == ReadCheckpoint(fx, jobs, source)
    ensures ReadCheckpoint(fx, jobs + [j], source) == ReadCheckpoint(fx, jobs, source)
  {
    LatestIgnores(fx, jobs, jobs[i := j], source);
    assert (jobs + [j])[..|jobs|] == jobs;
  }

  /** The checkpoint read ignores the other sources' runs. */
  lemma OtherSourcesKeepCheckpoint(fx: Fixes, jobs: seq<EtlJob>, j: EtlJob, source: DataSource)
    requires j.source != source
    ensures ReadCheckpoint(fx, jobs + [j], source) == ReadCheckpoint(fx, jobs, source)
  {
    assert (jobs + [j])[..|jobs|] == jobs;
  }

  // ---- Resolution ----

  /** What a stage of the load returns and leaves behind: its result, the resolver's caches, the tables. */
  datatype Staged<T> = Staged(result: Result<T, RunError>, caches: Caches, tables: Tables)

  /**
   * One iteration of the resolution loop: the source id from the map (the symbol when
   * there is none), `resolve_asset`, and the pair kept when the coin id is truthy.
   */
  function ResolveRecord(pairs: seq<Pair>, c: Caches, t: Tables, source: DataSource,
                         m: map<string, Value>, r: Candidate): (o: Staged<seq<Pair>>)
    ensures o.result.Ok? ==>
              o.result.value == pairs ||
              (|o.result.value| == |pairs| + 1 && o.result.value == pairs + [(o.result.value[|pairs|].0, r)] &&
               o.result.value[|pairs|].0 != 0)
  {
    var sid := SourceIdFor(m, r);
    if !sid.Str? then Staged(Err(NotText(sid)), c, t)
    else
      var s := ResolveAssetStep(c, t, source, sid.s, r.symbol, r.name);
      match s.result
      case Err(e) => Staged(Err(DbFailed(e)), s.caches, s.tables)
      case Ok(id) => Staged(Ok(if id != 0 then pairs + [(id, r)] else pairs), s.caches, s.tables)
  }

  /** The loop over the records, stopping at the first error. */
  function ResolveAll(c: Caches, t: Tables, source: DataSource, m: map<string, Value>,
                      records: seq<Candidate>): (o: Staged<seq<Pair>>)
    ensures o.result.Ok? ==> |o.result.value| <= |records| &&
                             forall p :: p in o.result.value ==> p.1 in records && p.0 != 0
    ensures o.result.Err? ==> o.result.error.DbFailed? || o.result.error.NotText?
    decreases |records|
  {
    if records == [] then Staged(Ok([]), c, t)
    else
      var init := records[..|records| - 1];
      var o := ResolveAll(c, t, source, m, init);
      assert forall x :: x in init ==> x in records;
      if o.result.Err? then o
      else ResolveRecord(o.result.value, o.caches, o.tables, source, m, records[|records| - 1])
  }

  lemma {:induction false} ResolveAllFailsOnward(c: Caches, t: Tables, source: DataSource, m: map<string, Value>,
                                                 records: seq<Candidate>, n: nat)
    requires n <= |records|
    requires ResolveAll(c, t, source, m, records[..n]).result.Err?
    ensures ResolveAll(c, t, source, m, records) == ResolveAll(c, t, source, m, records[..n])
    decreases |records|
  {
    if n < |records| {
      var init := records[..|records| - 1];
      assert init[..n] == records[..n];
      ResolveAllFailsOnward(c, t, source, m, init, n);
    } else {
      assert records[..n] == records;
    }
  }

  /** What the resolver may change: coins and mappings, and the coin id sequence only forward. */
  predicate Grown(t: Tables, t': Tables) {
    t'.prices == t.prices && t'.raws == t.raws && t'.jobs == t.jobs && t'.nextJobId == t.nextJobId &&
    t.nextCoinId <= t'.nextCoinId
  }

  /** A fresh coin id was drawn (`t'.nextCoinId` moved) and some cached key answers with such an id. */
  predicate CachesNewCoin(c: Caches, t: Tables, t': Tables) {
    t'.nextCoinId > t.nextCoinId ==>
      exists k :: k in c.mappingCache && c.mappingCache[k] >= t.nextCoinId
  }

  /** `_create_mapping` writes only the mapping table. */
  lemma CreateMappingFrame(t: Tables, coinId: nat, source: DataSource, sourceId: string,
                           sourceSymbol: string, sourceName: Option<string>)
    ensures var r := CreateMapping(t, coinId, source, sourceId, sourceSymbol, sourceName);
            r.Ok? ==> r.value.(mappings := t.mappings) == t
  {
  }

  /** `_create_coin_with_mapping` draws the next coin id and writes only coins and mappings. */
  lemma CreateCoinFrame(t: Tables, symbol: string, name: string, source: DataSource,
                        sourceId: string, sourceSymbol: string)
    ensures var r := CreateCoinWithMapping(t, symbol, name, source, sourceId, sourceSymbol);
            r.Ok? ==> Grown(t, r.value.0) && r.value.1 == t.nextCoinId
  {
    var a := AddCoin(t, symbol, name, GenerateSlug(symbol, name));
    if a.Ok? {
      CreateMappingFrame(a.value.0, a.value.1, source, sourceId, sourceSymbol, Some(name));
    }
  }

  /** Steps 2 to 4 write only coins and mappings, and draw a coin id only for the coin they answer with. */
  lemma LookupFrame(t: Tables, source: DataSource, sourceId: string, sourceSymbol: string, sourceName: Option<string>)
    ensures var w := LookupOrCreate(t, source, sourceId, sourceSymbol, sourceName);
            Grown(t, w.tables) && (w.tables.nextCoinId > t.nextCoinId ==> w.result == Ok(t.nextCoinId))
  {
    var symbol := NormalizedSymbol(sourceSymbol);
    if MappingOf(t.mappings, source, sourceId).None? && CoinBySymbol(t.coins, symbol).Ok? {
      if CoinBySymbol(t.coins, symbol).value.Some? {
        var coin := CoinBySymbol(t.coins, symbol).value.value;
        CreateMappingFrame(t, coin.id, source, sourceId, sourceSymbol, sourceName);
      } else {
        CreateCoinFrame(t, symbol, NameOr(sourceName, symbol), source, sourceId, sourceSymbol);
      }
    }
  }

  /**
   * `resolve_asset` writes only coins and mappings; it draws a coin id only when it creates
   * a coin, which it answers with and caches; cached keys keep their ids.
   */
  lemma ResolveAssetFrame(c: Caches, t: Tables, source: DataSource, sourceId: string,
                          sourceSymbol: string, sourceName: Option<string>)
    ensures var o := ResolveAssetStep(c, t, source, sourceId, sourceSymbol, sourceName);
            Grown(t, o.tables) &&
            (o.tables.nextCoinId > t.nextCoinId ==> o.result == Ok(t.nextCoinId)) &&
            forall k :: k in c.mappingCache ==> k in o.caches.mappingCache && o.caches.mappingCache[k] == c.mappingCache[k]
  {
    LookupFrame(t, source, sourceId, sourceSymbol, sourceName);
  }

  /** `ResolveAll` takes the frame and the fresh-coin caching of every step with it. */
  lemma {:induction false} ResolveAllFrame(c: Caches, t: Tables, source: DataSource, m: map<string, Value>,
                                           records: seq<Candidate>)
    ensures var o := ResolveAll(c, t, source, m, records);
            Grown(t, o.tables) && CachesNewCoin(o.caches, t, o.tables)
    decreases |records|
  {
    if records != [] {
      var init := records[..|records| - 1];
      var o := ResolveAll(c, t, source, m, init);
      ResolveAllFrame(c, t, source, m, init);
      var r := records[|records| - 1];
      var sid := SourceIdFor(m, r);
      if o.result.Ok? && sid.Str? {
        ResolveAssetFrame(o.caches, o.tables, source, sid.s, r.symbol, r.name);
        var s := ResolveAssetStep(o.caches, o.tables, source, sid.s, r.symbol, r.name);
        if s.tables.nextCoinId > t.nextCoinId {
          if s.tables.nextCoinId > o.tables.nextCoinId {
            assert s.caches.mappingCache[(source, sid.s)] >= t.nextCoinId;
          } else {
            var k :| k in o.caches.mappingCache && o.caches.mappingCache[k] >= t.nextCoinId;
            assert k in s.caches.mappingCache && s.caches.mappingCache[k] >= t.nextCoinId;
          }
        }
      }
    }
  }

  /** One record of the loop keeps the invariant, the coins, and pairs that name coins. */
  lemma ResolveRecordKeeps(pairs: seq<Pair>, c: Caches, t: Tables, source: DataSource,
                           m: map<string, Value>, r: Candidate)
    requires ResolverInvariant(c, t)
    requires forall p :: p in pairs ==> HasCoin(t.coins, p.0)
    ensures var o := ResolveRecord(pairs, c, t, source, m, r);
            ResolverInvariant(o.caches, o.tables) &&
            (forall x :: HasCoin(t.coins, x) ==> HasCoin(o.tables.coins, x)) &&
            (o.result.Ok? ==> forall p :: p in o.result.value ==> HasCoin(o.tables.coins, p.0))
  {
    var sid := SourceIdFor(m, r);
    if sid.Str? {
      ResolveAssetKeepsInvariant(c, t, source, sid.s, r.symbol, r.name);
      LookupKeepsTables(t, source, sid.s, r.symbol, r.name);
    }
  }

  /**
   * Resolving every record keeps the resolver's invariant and leaves the coins it had in
   * the table; every resolved pair names a coin of the new tables.
   */
  lemma {:induction false} ResolveAllKeeps(c: Caches, t: Tables, source: DataSource, m: map<string, Value>,
                                           records: seq<Candidate>)
    requires ResolverInvariant(c, t)
    ensures var o := ResolveAll(c, t, source, m, records);
            ResolverInvariant(o.caches, o.tables) &&
            (forall x :: HasCoin(t.coins, x) ==> HasCoin(o.tables.coins, x)) &&
            (o.result.Ok? ==> forall p :: p in o.result.value ==> HasCoin(o.tables.coins, p.0))
    decreases |records|
  {
    if records != [] {
      var init := records[..|records| - 1];
      var o := ResolveAll(c, t, source, m, init);
      ResolveAllKeeps(c, t, source, m, init);
      if o.result.Ok? {
        ResolveRecordKeeps(o.result.value, o.caches, o.tables, source, m, records[|records| - 1]);
      }
    }
  }

  // ---- resolve_and_upsert_unified_data ----

  /**
   * Nothing for no records; else the source-id map, the resolution loop, nothing more when
   * no record resolved, and the upsert of the de-duplicated rows, whose count is returned.
   */
  function Upserted(g: ConflictTarget, c: Caches, t: Tables, source: DataSource, raw: seq<Value>,
                    records: seq<Candidate>, ingestedAt: Instant): (o: Staged<nat>)
    ensures records == [] ==> o == Staged(Ok(0), c, t)
    ensures o.result.Ok? ==> o.result.value <= |records|
    ensures o.result.Err? ==> !o.result.error.ExtractFailed?
  {
    if records == [] then Staged(Ok(0), c, t)
    else
      match SourceIdMap(source, raw)
      case Err(e) => Staged(Err(Crashed(e)), c, t)
      case Ok(m) =>
        var o := ResolveAll(c, t, source, m, records);
        if o.result.Err? then Staged(Err(o.result.error), o.caches, o.tables)
        else if o.result.value == [] then Staged(Ok(0), o.caches, o.tables)
        else
          var unique := Dedup(o.result.value);
          DedupKeepsLast(o.result.value);
          var rows := Values(unique, ingestedAt);
          match Upsert(o.tables, rows, g)
          case Err(e) => Staged(Err(DbFailed(e)), o.caches, o.tables)
          case Ok(t') => Staged(Ok(|rows|), o.caches, t')
  }

  /**
   * The load writes no job row and draws coin ids only through the resolver; a coin id it
   * draws is cached, whether or not the load then fails.
   */
  lemma UpsertedFrame(g: ConflictTarget, c: Caches, t: Tables, source: DataSource, raw: seq<Value>,
                      records: seq<Candidate>, ingestedAt: Instant)
    ensures var o := Upserted(g, c, t, source, raw, records, ingestedAt);
            Grown(t, o.tables.(prices := t.prices)) && CachesNewCoin(o.caches, t, o.tables)
    ensures var o := Upserted(g, c, t, source, raw, records, ingestedAt);
            !HasArbiter(g) ==> o.tables.prices == t.prices && (o.result.Ok? ==> o.result.value == 0)
  {
    if records != [] && SourceIdMap(source, raw).Ok? {
      ResolveAllFrame(c, t, source, SourceIdMap(source, raw).value, records);
    }
  }

  /**
   * Under the resolver's invariant a load fails in the source-id map, while resolving,
   * or in the upsert statement. Named as written, the target has no index, so every
   * load that resolves a record fails there; with the index's target the statement
   * fails only when a row collides under `(symbol, source, timestamp)`, and otherwise
   * reports one row per distinct `(coin_id, timestamp)`. The invariant holds afterwards.
   */
  lemma UpsertedKeeps(g: ConflictTarget, c: Caches, t: Tables, source: DataSource, raw: seq<Value>,
                      records: seq<Candidate>, ingestedAt: Instant)
    requires ResolverInvariant(c, t)
    ensures var o := Upserted(g, c, t, source, raw, records, ingestedAt);
            ResolverInvariant(o.caches, o.tables)
    ensures var o := Upserted(g, c, t, source, raw, records, ingestedAt);
            records != [] && SourceIdMap(source, raw).Ok? ==>
              var resolved := ResolveAll(c, t, source, SourceIdMap(source, raw).value, records);
              (resolved.result.Err? ==> o.result == Err(resolved.result.error)) &&
              (resolved.result == Ok([]) ==> o.result == Ok(0)) &&
              (resolved.result.Ok? && resolved.result.value != [] ==>
                 (!HasArbiter(g) ==> o.result == Err(DbFailed(NoArbiter))) &&
                 (HasArbiter(g) ==>
                    o.result == Ok(|Dedup(resolved.result.value)|) ||
                    o.result == Err(DbFailed(UniqueViolation(SymbolKey)))))
  {
    if records != [] && SourceIdMap(source, raw).Ok? {
      var m := SourceIdMap(source, raw).value;
      var o := ResolveAll(c, t, source, m, records);
      ResolveAllKeeps(c, t, source, m, records);
      if o.result.Ok? && o.result.value != [] {
        UpsertResolved(g, o.tables, o.result.value, ingestedAt);
      }
    }
  }

  /**
   * The upsert of de-duplicated, resolved pairs: without an index for its target it
   * fails with no arbiter; with one it succeeds, keeping the tables consistent, or
   * collides on the symbol constraint.
   */
  lemma UpsertResolved(g: ConflictTarget, t: Tables, pairs: seq<Pair>, ingestedAt: Instant)
    requires Consistent(t)
    requires forall p :: p in pairs ==> HasCoin(t.coins, p.0)
    ensures var u := Upsert(t, Values(Dedup(pairs), ingestedAt), g);
            (!HasArbiter(g) ==> u == Err(NoArbiter)) &&
            (HasArbiter(g) ==> u.Ok? || u == Err(UniqueViolation(SymbolKey))) &&
            (u.Ok? ==> Consistent(u.value))
  {
    var unique := Dedup(pairs);
    DedupKeepsLast(pairs);
    var rows := Values(unique, ingestedAt);
    ValuesKeysUnique(unique, ingestedAt);
    forall i | 0 <= i < |rows| ensures HasCoin(t.coins, rows[i].coinId.value) {
      var k :| 0 <= k < |pairs| && unique[i] == pairs[k] && LastOfKey(pairs, k);
      assert pairs[k] in pairs;
    }
    if Upsert(t, rows, g).Ok? {
      UpsertConsistent(t, rows, g);
    }
  }

  /** `resolve_and_upsert_unified_data` after `save_raw_data`: the raw payloads are stored first. */
  function Load(g: ConflictTarget, c: Caches, t: Tables, source: DataSource, raw: seq<Value>,
                records: seq<Candidate>, loadedAt: Instant, ingestedAt: Instant): (o: Staged<nat>)
  {
    Upserted(g, c, AddRaws(t, source, raw, loadedAt), source, raw, records, ingestedAt)
  }

  // ---- Extraction ----

  /** The classes `EXTRACTORS` registers. */
  datatype ExtractorClass = CoinPaprikaExtractor | CoinGeckoExtractor | CSVExtractor

  /** The source whose data an extractor class fetches. */
  function SourceOf(e: ExtractorClass): DataSource {
    match e
    case CoinPaprikaExtractor => CoinPaprika
    case CoinGeckoExtractor => CoinGecko
    case CSVExtractor => Csv
  }

  /**
   * `EXTRACTORS`: every source has its class, so the ValueError of `get_extractor` has no
   * source to be raised for.
   */
  function ExtractorFor(source: DataSource): (e: ExtractorClass)
    ensures SourceOf(e) == source
    ensures forall e' :: SourceOf(e') == source ==> e' == e
  {
    match source
    case CoinPaprika => CoinPaprikaExtractor
    case CoinGecko => CoinGeckoExtractor
    case Csv => CSVExtractor
  }

  /**
   * What the extractors talk to: the parsing library, the text of the errors Python
   * raises, each API's responses by attempt (and page), the CSV file, and the text
   * `str(e)` gives a foreign exception.
   */
  datatype World = World(
    lib: Library.Lib,
    say: Extraction.Crash -> string,
    gecko: nat -> nat -> Extraction.Response,
    paprika: nat -> Extraction.Response,
    csvPath: string,
    csvFile: CsvExtractor.CsvFile,
    describe: RunError -> string)

  /** What `fetch_data` returns for the extractor class. */
  function Fetched(w: World, e: ExtractorClass, checkpoint: Option<Instant>): Result<seq<Value>, Extraction.Failure> {
    match e
    case CoinPaprikaExtractor => Paprika.Fetch(w.lib, w.say, w.paprika, checkpoint).data
    case CoinGeckoExtractor => Gecko.Fetch(w.lib, w.say, w.gecko, checkpoint).data
    case CSVExtractor => CsvExtractor.Fetch(w.lib, w.csvPath, w.csvFile, checkpoint)
  }

  /** What `normalize` makes of the raw items for the extractor class. */
  function Normalized(lib: Library.Lib, e: ExtractorClass, now: Instant, raw: seq<Value>): (r: seq<Candidate>)
    ensures |r| <= |raw|
    ensures forall c :: c in r ==> c.source == SourceOf(e) && |c.symbol| <= SymbolWidth && Text.IsUpperCase(c.symbol)
  {
    match e
    case CoinPaprikaExtractor =>
      Paprika.NormalizedAreClean(lib, now, raw);
      Extraction.FilterMap(item => Paprika.NormalizeItem(lib, now, item), raw)
    case CoinGeckoExtractor =>
      Gecko.NormalizedAreClean(lib, now, raw);
      Extraction.FilterMap(item => Gecko.NormalizeItem(lib, now, item), raw)
    case CSVExtractor =>
      CsvExtractor.NormalizedAreClean(lib, now, raw);
      Extraction.FilterMap(item => CsvExtractor.NormalizeItem(lib, now, item), raw)
  }

  /** `extract(last_processed)`: the raw items `fetch_data` returns and the candidates `normalize` keeps. */
  function Extract(w: World, e: ExtractorClass, checkpoint: Option<Instant>, now: Instant)
    : (r: Result<(seq<Value>, seq<Candidate>), Extraction.Failure>)
    ensures r.Err? <==> Fetched(w, e, checkpoint).Err?
    ensures r.Ok? ==> r.value.0 == Fetched(w, e, checkpoint).value && r.value.1 == Normalized(w.lib, e, now, r.value.0)
  {
    match Fetched(w, e, checkpoint)
    case Err(f) => Err(f)
    case Ok(raw) => Ok((raw, Normalized(w.lib, e, now, raw)))
  }

  method ExtractData(w: World, e: ExtractorClass, checkpoint: Option<Instant>, now: Instant)
    returns (r: Result<(seq<Value>, seq<Candidate>), Extraction.Failure>)
    ensures r == Extract(w, e, checkpoint, now)
  {
    var fetched: Result<seq<Value>, Extraction.Failure>;
    var delays: seq<nat>;
    match e {
      case CoinPaprikaExtractor => fetched, delays := Paprika.FetchData(w.lib, w.say, w.paprika, checkpoint);
      case CoinGeckoExtractor => fetched, delays := Gecko.FetchData(w.lib, w.say, w.gecko, checkpoint);
      case CSVExtractor => fetched := CsvExtractor.FetchData(w.lib, w.csvPath, w.csvFile, checkpoint);
    }
    if fetched.Err? {
      return Err(fetched.error);
    }
    var normalized: seq<Candidate>;
    match e {
      case CoinPaprikaExtractor => normalized := Paprika.Normalize(w.lib, now, fetched.value);
      case CoinGeckoExtractor => normalized := Gecko.Normalize(w.lib, now, fetched.value);
      case CSVExtractor => normalized := CsvExtractor.Normalize(w.lib, now, fetched.value);
    }
    r := Ok((fetched.value, normalized));
  }

  // ---- run_etl_for_source ----

  /**
   * The clock readings of a run: the job's `started_at` (the server's `now()`), the
   * `datetime.now()` that `normalize` falls back to, `created_at` of the raw rows, the
   * `ingested_at` of the upserted rows, and `completed_at` of the job.
   */
  datatype Clock = Clock(started: Instant, normalized: Instant, loaded: Instant, ingested: Instant, completed: Instant)

  /**
   * How a run ends: it returns the job (its id, the records processed and the checkpoint
   * set on the local object), re-raises the ExtractionException, or raises a
   * DatabaseException whose details carry `str(e)`.
   */
  datatype RunResult =
    | Completed(jobId: nat, recordsProcessed: nat, checkpoint: Option<Instant>)
    | RaisedExtraction(message: string)
    | RaisedDatabase(message: string, error: string)

  /** The error text a failed run stores on its job. */
  function StoredError(r: RunResult): (s: Option<string>) {
    match r
    case Completed(_, _, _) => None
    case RaisedExtraction(m) => Some(m)
    case RaisedDatabase(_, e) => Some(e)
  }

  /** A run's result, the resolver's caches and the tables it leaves. */
  datatype Ran = Ran(result: RunResult, caches: Caches, tables: Tables)

  /** The greatest candidate timestamp, `max(r.timestamp for r in normalized_data)`. */
  function MaxTimestamp(records: seq<Candidate>): (m: Instant)
    requires records != []
    ensures exists i :: 0 <= i < |records| && records[i].timestamp == m
    ensures forall i :: 0 <= i < |records| ==> records[i].timestamp <= m
    decreases |records|
  {
    var last := records[|records| - 1].timestamp;
    if |records| == 1 then last
    else
      var rest := MaxTimestamp(records[..|records| - 1]);
      assert forall i :: 0 <= i < |records| - 1 ==> records[i] == records[..|records| - 1][i];
      if rest >= last then rest else last
  }

  /**
   * The two `except` clauses, after the session rolled back to `saved`: the job records
   * FAILURE with the error text; an ExtractionException is re-raised, anything else
   * (an APIException included) becomes a DatabaseException. The corrected service also
   * drops the resolver's caches, which may name rows the rollback removed.
   */
  function Fail(fx: Fixes, w: World, c: Caches, saved: Tables, current: Tables, id: nat,
                source: DataSource, e: RunError, completedAt: Instant): (r: Ran)
    ensures r.result.RaisedExtraction? <==> e.ExtractFailed? && e.failure.ExtractionError?
    ensures !r.result.Completed? && StoredError(r.result) == Some(ErrorText(w.describe, e))
    ensures r.result.RaisedDatabase? ==> r.result.message == "ETL failed for " + SourceValue(source)
    ensures r.caches == if fx.Corrected? then NoCaches else c
  {
    var message := ErrorText(w.describe, e);
    var result := if e.ExtractFailed? && e.failure.ExtractionError? then RaisedExtraction(message)
                  else RaisedDatabase("ETL failed for " + SourceValue(source), message);
    Ran(result, if fx.Corrected? then NoCaches else c,
        UpdateJob(Rollback(saved, current), id, Failure, 0, None, Some(message), completedAt))
  }

  /** What follows a successful extraction of `raw` into `records`, with the job `id` in `t1`. */
  function Loaded(fx: Fixes, w: World, c: Caches, t1: Tables, id: nat, source: DataSource,
                  raw: seq<Value>, records: seq<Candidate>, clock: Clock): (r: Ran)
  {
    if records == [] then
      Ran(Completed(id, 0, None), c, UpdateJob(t1, id, Success, 0, None, None, clock.completed))
    else
      var l := Load(TargetOf(fx), c, t1, source, raw, records, clock.loaded, clock.ingested);
      match l.result
      case Err(e) => Fail(fx, w, l.caches, t1, l.tables, id, source, e, clock.completed)
      case Ok(n) =>
        var latest := MaxTimestamp(records);
        Ran(Completed(id, n, Some(latest)), l.caches, UpdateJob(l.tables, id, Success, n, Some(latest), None, clock.completed))
  }

  /**
   * `run_etl_for_source`: the RUNNING job, committed on its own; the checkpoint unless
   * `force_full`; the extraction; then no-data success, or the load and success, or
   * failure.
   */
  function RunFor(fx: Fixes, c: Caches, t: Tables, w: World, source: DataSource, forceFull: bool,
                  clock: Clock): (r: Ran)
  {
    var (t1, id) := AddJob(t, source, clock.started);
    var checkpoint := if forceFull then None else ReadCheckpoint(fx, t1.jobs, source);
    match Extract(w, ExtractorFor(source), checkpoint, clock.normalized)
    case Err(f) => Fail(fx, w, c, t1, t1, id, source, ExtractFailed(f), clock.completed)
    case Ok((raw, records)) => Loaded(fx, w, c, t1, id, source, raw, records, clock)
  }

  /** The checkpoint a run reads, and the candidates its extraction yields (None when it fails). */
  function CheckpointRead(fx: Fixes, t: Tables, source: DataSource, forceFull: bool, clock: Clock): Option<Instant> {
    if forceFull then None else ReadCheckpoint(fx, AddJob(t, source, clock.started).0.jobs, source)
  }

  function Candidates(fx: Fixes, t: Tables, w: World, source: DataSource, forceFull: bool, clock: Clock)
    : Option<seq<Candidate>>
  {
    match Extract(w, ExtractorFor(source), CheckpointRead(fx, t, source, forceFull, clock), clock.normalized)
    case Err(_) => None
    case Ok((_, records)) => Some(records)
  }

  /** The job row of a run that ends as `r`. */
  predicate RecordsOutcome(j: EtlJob, id: nat, source: DataSource, clock: Clock, r: RunResult) {
    j.id == id && j.source == source && j.startedAt == clock.started && j.completedAt == Some(clock.completed) &&
    (r.Completed? ==> r.jobId == id && j.status == Success && j.recordsProcessed == r.recordsProcessed &&
                      j.lastProcessed == r.checkpoint && j.errorMessage == None) &&
    (!r.Completed? ==> j.status == Failure && j.recordsProcessed == 0 && j.lastProcessed == None &&
                       j.errorMessage == Truncated(StoredError(r)))
  }

  // ---- What a run promises ----

  /**
   * A run appends exactly one job row, with the next id, and leaves the earlier rows
   * alone; the row records how the run ended. A run that fails leaves no data behind:
   * coins, mappings, prices and raw rows are as they were.
   */
  lemma RunRecordsJob(fx: Fixes, c: Caches, t: Tables, w: World, source: DataSource, forceFull: bool, clock: Clock)
    ensures var r := RunFor(fx, c, t, w, source, forceFull, clock);
            |r.tables.jobs| == |t.jobs| + 1 && r.tables.jobs[..|t.jobs|] == t.jobs &&
            RecordsOutcome(r.tables.jobs[|t.jobs|], t.nextJobId, source, clock, r.result)
    ensures var r := RunFor(fx, c, t, w, source, forceFull, clock);
            !r.result.Completed? ==>
              r.tables.coins == t.coins && r.tables.mappings == t.mappings &&
              r.tables.prices == t.prices && r.tables.raws == t.raws
  {
    var (t1, id) := AddJob(t, source, clock.started);
    var x := Extract(w, ExtractorFor(source), CheckpointRead(fx, t, source, forceFull, clock), clock.normalized);
    if x.Ok? {
      LoadedRecordsJob(fx, w, c, t1, id, source, x.value.0, x.value.1, clock);
    } else {
      assert JobIndex(t1.jobs, id) == Some(|t.jobs|);
    }
  }

  /** `RunRecordsJob` after the extraction, for the job row `t1` ends with. */
  lemma LoadedRecordsJob(fx: Fixes, w: World, c: Caches, t1: Tables, id: nat, source: DataSource,
                         raw: seq<Value>, records: seq<Candidate>, clock: Clock)
    requires |t1.jobs| > 0 && t1.jobs[|t1.jobs| - 1] == EtlJob(id, source, Running, None, 0, clock.started, None, None)
    ensures var r := Loaded(fx, w, c, t1, id, source, raw, records, clock);
            var n := |t1.jobs| - 1;
            |r.tables.jobs| == |t1.jobs| && r.tables.jobs[..n] == t1.jobs[..n] &&
            RecordsOutcome(r.tables.jobs[n], id, source, clock, r.result)
    ensures var r := Loaded(fx, w, c, t1, id, source, raw, records, clock);
            !r.result.Completed? ==>
              r.tables.coins == t1.coins && r.tables.mappings == t1.mappings &&
              r.tables.prices == t1.prices && r.tables.raws == t1.raws
  {
    assert JobIndex(t1.jobs, id) == Some(|t1.jobs| - 1);
    if records != [] {
      UpsertedFrame(TargetOf(fx), c, AddRaws(t1, source, raw, clock.loaded), source, raw, records, clock.ingested);
    }
  }

  /**
   * How a run reports: a failed extraction is re-raised when it is an ExtractionException
   * and wrapped in a DatabaseException otherwise; no candidates is a success with nothing
   * processed and no checkpoint; otherwise a success carries the candidates' latest
   * timestamp and at most one record per candidate, and a failure is a DatabaseException.
   */
  lemma RunReports(fx: Fixes, c: Caches, t: Tables, w: World, source: DataSource, forceFull: bool, clock: Clock)
    ensures var r := RunFor(fx, c, t, w, source, forceFull, clock).result;
            var x := Extract(w, ExtractorFor(source), CheckpointRead(fx, t, source, forceFull, clock), clock.normalized);
            (x.Err? ==>
               if x.error.ExtractionError? then r == RaisedExtraction(x.error.message)
               else r == RaisedDatabase("ETL failed for " + SourceValue(source), x.error.message)) &&
            (x.Ok? && x.value.1 == [] ==> r == Completed(t.nextJobId, 0, None)) &&
            (x.Ok? && x.value.1 != [] ==>
               (r.Completed? ==> r.jobId == t.nextJobId && r.checkpoint == Some(MaxTimestamp(x.value.1)) &&
                                 r.recordsProcessed <= |x.value.1|) &&
               (!r.Completed? ==> r.RaisedDatabase? && r.message == "ETL failed for " + SourceValue(source)))
  {
    var (t1, id) := AddJob(t, source, clock.started);
    var x := Extract(w, ExtractorFor(source), CheckpointRead(fx, t, source, forceFull, clock), clock.normalized);
    if x.Ok? {
      var (raw, records) := x.value;
      assert RunFor(fx, c, t, w, source, forceFull, clock) == Loaded(fx, w, c, t1, id, source, raw, records, clock);
      if records != [] {
        var l := Load(TargetOf(fx), c, t1, source, raw, records, clock.loaded, clock.ingested);
        if l.result.Err? {
          assert !l.result.error.ExtractFailed?;
        }
      }
    }
  }

  /** Every finished run of `source` succeeded before `at`: the order of the checkpoint query is strict. */
  predicate CompletedBefore(jobs: seq<EtlJob>, source: DataSource, at: Instant) {
    forall i :: 0 <= i < |jobs| && jobs[i].source == source && jobs[i].status == Success ==>
      jobs[i].completedAt.Some? && jobs[i].completedAt.value < at
  }

  /** Appending a row the query does not select leaves the checkpoint as it was. */
  lemma UnselectedKeepsCheckpoint(fx: Fixes, jobs: seq<EtlJob>, j: EtlJob, source: DataSource)
    requires !Selected(fx, j, source)
    ensures ReadCheckpoint(fx, jobs + [j], source) == ReadCheckpoint(fx, jobs, source)
  {
    assert (jobs + [j])[..|jobs|] == jobs;
  }

  /** Appending a selected row that completed after every earlier one makes its checkpoint the answer. */
  lemma NewestDecidesCheckpoint(fx: Fixes, jobs: seq<EtlJob>, j: EtlJob, source: DataSource)
    requires Selected(fx, j, source) && j.completedAt.Some?
    requires CompletedBefore(jobs, source, j.completedAt.value)
    ensures ReadCheckpoint(fx, jobs + [j], source) == j.lastProcessed
  {
    assert (jobs + [j])[..|jobs|] == jobs;
    var rest := Latest(fx, jobs, source);
    if rest.Some? {
      var i :| 0 <= i < |jobs| && jobs[i] == rest.value;
    }
  }

  /**
   * Where a run leaves the checkpoint: at the checkpoint of its success when the query
   * selects its row, and where it was otherwise. As written, this includes a success
   * with no checkpoint, which resets it.
   */
  lemma RunMovesCheckpoint(fx: Fixes, c: Caches, t: Tables, w: World, source: DataSource, forceFull: bool, clock: Clock)
    requires CompletedBefore(t.jobs, source, clock.completed)
    ensures var r := RunFor(fx, c, t, w, source, forceFull, clock);
            ReadCheckpoint(fx, r.tables.jobs, source) ==
              if r.result.Completed? && (fx.AsWritten? || r.result.checkpoint.Some?) then r.result.checkpoint
              else ReadCheckpoint(fx, t.jobs, source)
  {
    var r := RunFor(fx, c, t, w, source, forceFull, clock);
    RunRecordsJob(fx, c, t, w, source, forceFull, clock);
    var j := r.tables.jobs[|t.jobs|];
    assert r.tables.jobs == t.jobs + [j];
    if Selected(fx, j, source) {
      NewestDecidesCheckpoint(fx, t.jobs, j, source);
    } else {
      UnselectedKeepsCheckpoint(fx, t.jobs, j, source);
    }
  }

  /**
   * As written, an incremental run that finds nothing new resets the checkpoint: its
   * SUCCESS row with no `last_processed_timestamp` becomes the latest, so the next run
   * reads none and extracts everything again.
   */
  lemma EmptyRunResetsCheckpoint(c: Caches, t: Tables, w: World, source: DataSource, clock: Clock, next: Clock)
    requires CompletedBefore(t.jobs, source, clock.completed)
    requires ReadCheckpoint(AsWritten, t.jobs, source).Some?
    requires Candidates(AsWritten, t, w, source, false, clock) == Some([])
    ensures var r := RunFor(AsWritten, c, t, w, source, false, clock);
            ReadCheckpoint(AsWritten, r.tables.jobs, source) == None &&
            CheckpointRead(AsWritten, r.tables, source, false, next) == None
  {
    var r := RunFor(AsWritten, c, t, w, source, false, clock);
    RunMovesCheckpoint(AsWritten, c, t, w, source, false, clock);
    var running := AddJob(r.tables, source, next.started).0.jobs[|r.tables.jobs|];
    assert AddJob(r.tables, source, next.started).0.jobs == r.tables.jobs + [running];
    UnselectedKeepsCheckpoint(AsWritten, r.tables.jobs, running, source);
  }

  /**
   * The corrected query skips SUCCESS rows without a checkpoint: a run that finds nothing
   * new keeps the checkpoint, and once there is a checkpoint no run loses it.
   */
  lemma CorrectedKeepsCheckpoint(c: Caches, t: Tables, w: World, source: DataSource, forceFull: bool, clock: Clock)
    requires CompletedBefore(t.jobs, source, clock.completed)
    ensures var r := RunFor(Corrected, c, t, w, source, forceFull, clock);
            (Candidates(Corrected, t, w, source, forceFull, clock) == Some([]) ==>
               ReadCheckpoint(Corrected, r.tables.jobs, source) == ReadCheckpoint(Corrected, t.jobs, source)) &&
            (ReadCheckpoint(Corrected, t.jobs, source).Some? ==> ReadCheckpoint(Corrected, r.tables.jobs, source).Some?)
  {
    RunMovesCheckpoint(Corrected, c, t, w, source, forceFull, clock);
  }

  // ---- The resolver's caches across runs ----

  /** Storing raw payloads and a job row keep the resolver's invariant. */
  lemma StartKeepsInvariant(c: Caches, t: Tables, source: DataSource, raw: seq<Value>, at: Instant, started: Instant)
    requires ResolverInvariant(c, t)
    ensures var t1 := AddJob(t, source, started).0;
            ResolverInvariant(c, t1) && ResolverInvariant(c, AddRaws(t1, source, raw, at))
  {
    AddJobConsistent(t, source, started);
  }

  /**
   * A run that succeeds keeps the resolver's invariant; the corrected service keeps it
   * whatever the outcome, since a failed run drops the caches it filled.
   */
  lemma RunKeepsInvariant(fx: Fixes, c: Caches, t: Tables, w: World, source: DataSource, forceFull: bool, clock: Clock)
    requires ResolverInvariant(c, t)
    ensures var r := RunFor(fx, c, t, w, source, forceFull, clock);
            fx.Corrected? || r.result.Completed? ==> ResolverInvariant(r.caches, r.tables)
  {
    var (t1, id) := AddJob(t, source, clock.started);
    var x := Extract(w, ExtractorFor(source), CheckpointRead(fx, t, source, forceFull, clock), clock.normalized);
    StartKeepsInvariant(c, t, source, [], clock.loaded, clock.started);
    if x.Ok? {
      LoadedKeepsInvariant(fx, w, c, t1, id, source, x.value.0, x.value.1, clock);
    } else {
      FailKeepsInvariant(fx, w, c, t1, t1, id, source, ExtractFailed(x.error), clock.completed);
    }
  }

  /** A corrected failure leaves a consistent database and empty caches. */
  lemma FailKeepsInvariant(fx: Fixes, w: World, c: Caches, saved: Tables, current: Tables, id: nat,
                           source: DataSource, e: RunError, completedAt: Instant)
    requires Consistent(saved) && SymbolsUnique(saved.coins)
    requires saved.nextCoinId <= current.nextCoinId && saved.nextJobId <= current.nextJobId
    ensures var r := Fail(fx, w, c, saved, current, id, source, e, completedAt);
            fx.Corrected? ==> ResolverInvariant(r.caches, r.tables)
  {
    var message := Some(ErrorText(w.describe, e));
    RollbackConsistent(saved, current);
    var rolled := Rollback(saved, current);
    UpdateJobConsistent(rolled, id, Failure, 0, None, message, completedAt);
    NoCachesKeepInvariant(UpdateJob(rolled, id, Failure, 0, None, message, completedAt));
  }

  /** `RunKeepsInvariant` after the extraction. */
  lemma LoadedKeepsInvariant(fx: Fixes, w: World, c: Caches, t1: Tables, id: nat, source: DataSource,
                             raw: seq<Value>, records: seq<Candidate>, clock: Clock)
    requires ResolverInvariant(c, t1)
    ensures var r := Loaded(fx, w, c, t1, id, source, raw, records, clock);
            fx.Corrected? || r.result.Completed? ==> ResolverInvariant(r.caches, r.tables)
  {
    if records == [] {
      UpdateJobConsistent(t1, id, Success, 0, None, None, clock.completed);
    } else {
      var t2 := AddRaws(t1, source, raw, clock.loaded);
      assert ResolverInvariant(c, t2);
      var l := Load(TargetOf(fx), c, t1, source, raw, records, clock.loaded, clock.ingested);
      UpsertedKeeps(TargetOf(fx), c, t2, source, raw, records, clock.ingested);
      UpsertedFrame(TargetOf(fx), c, t2, source, raw, records, clock.ingested);
      if l.result.Ok? {
        UpdateJobConsistent(l.tables, id, Success, l.result.value, Some(MaxTimestamp(records)), None, clock.completed);
      } else {
        FailKeepsInvariant(fx, w, l.caches, t1, l.tables, id, source, l.result.error, clock.completed);
      }
    }
  }

  /**
   * As written, no run writes a price row: the upsert names `(coin_id, timestamp)`,
   * which no unique index matches, so a load that resolves a record fails and rolls
   * back, and a run that completes has processed nothing.
   */
  lemma AsWrittenStoresNoPrices(c: Caches, t: Tables, w: World, source: DataSource, forceFull: bool, clock: Clock)
    ensures var r := RunFor(AsWritten, c, t, w, source, forceFull, clock);
            r.tables.prices == t.prices && (r.result.Completed? ==> r.result.recordsProcessed == 0)
  {
    var (t1, id) := AddJob(t, source, clock.started);
    var x := Extract(w, ExtractorFor(source), CheckpointRead(AsWritten, t, source, forceFull, clock), clock.normalized);
    if x.Ok? && x.value.1 != [] {
      UpsertedFrame(CoinTimestamp, c, AddRaws(t1, source, x.value.0, clock.loaded), source, x.value.0, x.value.1,
                    clock.ingested);
    }
  }

  /**
   * As written, a run that created a coin and then failed keeps the coin's id in the
   * resolver's cache while the rollback removes the coin: the cache names a coin that
   * does not exist.
   */
  lemma StaleCacheAfterRollback(c: Caches, t: Tables, w: World, source: DataSource, forceFull: bool, clock: Clock)
    requires ResolverInvariant(c, t)
    ensures var r := RunFor(AsWritten, c, t, w, source, forceFull, clock);
            !r.result.Completed? && r.tables.nextCoinId > t.nextCoinId ==>
              exists k :: k in r.caches.mappingCache && !HasCoin(r.tables.coins, r.caches.mappingCache[k])
  {
    var (t1, id) := AddJob(t, source, clock.started);
    var x := Extract(w, ExtractorFor(source), CheckpointRead(AsWritten, t, source, forceFull, clock), clock.normalized);
    var r := RunFor(AsWritten, c, t, w, source, forceFull, clock);
    if x.Ok? && x.value.1 != [] && !r.result.Completed? && r.tables.nextCoinId > t.nextCoinId {
      var t2 := AddRaws(t1, source, x.value.0, clock.loaded);
      var l := Load(TargetOf(AsWritten), c, t1, source, x.value.0, x.value.1, clock.loaded, clock.ingested);
      UpsertedFrame(TargetOf(AsWritten), c, t2, source, x.value.0, x.value.1, clock.ingested);
      var k :| k in l.caches.mappingCache && l.caches.mappingCache[k] >= t.nextCoinId;
      assert r.tables.coins == t.coins;
      assert !HasCoin(r.tables.coins, r.caches.mappingCache[k]);
    }
  }

  /**
   * The stale id is then answered from the cache for its key, without a query, and an
   * upsert of a row with that id, under a target an index matches, is refused by the
   * `coin_id` foreign key: every later load of that asset fails, until the process
   * restarts.
   */
  lemma StaleIdFailsNextUpsert(c: Caches, t: Tables, k: (DataSource, string), sourceSymbol: string,
                               sourceName: Option<string>, rows: seq<PriceRow>, i: nat, g: ConflictTarget)
    requires k in c.mappingCache && !HasCoin(t.coins, c.mappingCache[k])
    requires i < |rows| && rows[i].coinId == Some(c.mappingCache[k])
    requires HasArbiter(g)
    ensures ResolveAssetStep(c, t, k.0, k.1, sourceSymbol, sourceName) == Outcome(Ok(c.mappingCache[k]), c, t)
    ensures Upsert(t, rows, g) == Err(ForeignKeyViolation("unified_crypto_data_coin_id_fkey"))
  {
  }

  // ---- run_all_sources ----

  /** `sources or list(DataSource)`: no list, or an empty one, means every source. */
  function Targets(sources: Option<seq<DataSource>>): (r: seq<DataSource>)
    ensures r != []
    ensures sources.Some? && sources.value != [] ==> r == sources.value
    ensures sources.None? || sources.value == [] ==> forall s: DataSource :: s in r
  {
    AllSourcesComplete();
    if sources.Some? && sources.value != [] then sources.value else AllSources
  }

  /** The runs in sequence, one per target, each on the state the previous one left. */
  datatype Batch = Batch(results: seq<RunResult>, caches: Caches, tables: Tables)

  function RunAll(fx: Fixes, c: Caches, t: Tables, w: World, targets: seq<DataSource>, forceFull: bool,
                  clocks: nat -> Clock): (b: Batch)
    ensures |b.results| == |targets|
    decreases |targets|
  {
    if targets == [] then Batch([], c, t)
    else
      var n := |targets| - 1;
      var b := RunAll(fx, c, t, w, targets[..n], forceFull, clocks);
      var r := RunFor(fx, b.caches, b.tables, w, targets[n], forceFull, clocks(n));
      Batch(b.results + [r.result], r.caches, r.tables)
  }

  /** `results`: for each source, the job of its last run that did not raise. */
  function Collected(targets: seq<DataSource>, results: seq<RunResult>): (m: map<DataSource, RunResult>)
    requires |targets| == |results|
    decreases |targets|
  {
    if targets == [] then map[]
    else
      var n := |targets| - 1;
      var m := Collected(targets[..n], results[..n]);
      if results[n].Completed? then m[targets[n] := results[n]] else m
  }

  /** The run at `i` is the last completed run of its source. */
  predicate LastCompleted(targets: seq<DataSource>, results: seq<RunResult>, i: nat)
    requires |targets| == |results|
  {
    i < |targets| && results[i].Completed? &&
    forall j :: i < j < |targets| && targets[j] == targets[i] ==> !results[j].Completed?
  }

  /** The position of the last completed run of `s`, if any. */
  function LastCompletedOf(targets: seq<DataSource>, results: seq<RunResult>, s: DataSource): (r: Option<nat>)
    requires |targets| == |results|
    ensures r.Some? ==> r.value < |targets| && targets[r.value] == s && LastCompleted(targets, results, r.value)
    ensures r.None? <==> forall i :: 0 <= i < |targets| && targets[i] == s ==> !results[i].Completed?
    decreases |targets|
  {
    if targets == [] then None
    else
      var n := |targets| - 1;
      if targets[n] == s && results[n].Completed? then Some(n)
      else
        var r := LastCompletedOf(targets[..n], results[..n], s);
        assert forall i :: 0 <= i < n ==> targets[..n][i] == targets[i] && results[..n][i] == results[i];
        r
  }

  /**
   * A failure is isolated to its source: a source is in the results exactly when one of
   * its runs completed, and maps to the last such run, whatever the other runs raised.
   */
  lemma {:induction false} CollectedLastCompleted(targets: seq<DataSource>, results: seq<RunResult>, s: DataSource)
    requires |targets| == |results|
    ensures s in Collected(targets, results) <==> LastCompletedOf(targets, results, s).Some?
    ensures s in Collected(targets, results) ==>
              Collected(targets, results)[s] == results[LastCompletedOf(targets, results, s).value]
    decreases |targets|
  {
    if targets != [] {
      var n := |targets| - 1;
      CollectedLastCompleted(targets[..n], results[..n], s);
    }
  }

  /** Under the corrected service every run keeps the resolver's invariant, so the whole batch does. */
  lemma {:induction false} RunAllKeepsInvariant(c: Caches, t: Tables, w: World, targets: seq<DataSource>,
                                                forceFull: bool, clocks: nat -> Clock)
    requires ResolverInvariant(c, t)
    ensures var b := RunAll(Corrected, c, t, w, targets, forceFull, clocks);
            ResolverInvariant(b.caches, b.tables)
    decreases |targets|
  {
    if targets != [] {
      var n := |targets| - 1;
      var b := RunAll(Corrected, c, t, w, targets[..n], forceFull, clocks);
      RunAllKeepsInvariant(c, t, w, targets[..n], forceFull, clocks);
      RunKeepsInvariant(Corrected, b.caches, b.tables, w, targets[n], forceFull, clocks(n));
    }
  }

  // ---- ETLService ----

  /** Storing one more payload appends one raw row. */
  lemma AddRawsStep(t: Tables, source: DataSource, raw: seq<Value>, i: nat, at: Instant)
    requires i < |raw|
    ensures AddRaws(t, source, raw[..i + 1], at) ==
            AddRaws(t, source, raw[..i], at).(raws := AddRaws(t, source, raw[..i], at).raws + [RawRow(source, raw[i], at)])
  {
    var a := AddRaws(t, source, raw[..i + 1], at);
    var b := AddRaws(t, source, raw[..i], at);
    assert raw[..i + 1] == raw[..i] + [raw[i]];
    RawRowsStep(t.raws, a.raws, b.raws, source, raw[..i + 1], raw[..i], raw[i], at);
    assert a.(raws := t.raws) == b.(raws := t.raws);
  }

  /** The raw rows for the payloads `q + [x]` are those for `q`, then one for `x`. */
  lemma RawRowsStep(base: seq<RawRow>, a: seq<RawRow>, b: seq<RawRow>, source: DataSource,
                    p: seq<Value>, q: seq<Value>, x: Value, at: Instant)
    requires p == q + [x]
    requires |a| == |base| + |p| && a[..|base|] == base
    requires forall k :: 0 <= k < |p| ==> a[|base| + k] == RawRow(source, p[k], at)
    requires |b| == |base| + |q| && b[..|base|] == base
    requires forall k :: 0 <= k < |q| ==> b[|base| + k] == RawRow(source, q[k], at)
    ensures a == b + [RawRow(source, x, at)]
  {
    forall k | 0 <= k < |a| ensures a[k] == (b + [RawRow(source, x, at)])[k] {
      if k < |base| {
        assert a[k] == a[..|base|][k] && b[k] == b[..|base|][k];
      } else {
        assert a[|base| + (k - |base|)] == RawRow(source, p[k - |base|], at);
        if k - |base| < |q| {
          assert b[|base| + (k - |base|)] == RawRow(source, q[k - |base|], at);
        }
      }
    }
  }

  /** A source's counter of runs with `status`, one higher. */
  function Bumped(runs: map<Metrics.EtlKey, nat>, source: DataSource, status: string): (r: map<Metrics.EtlKey, nat>)
    ensures (SourceValue(source), status) in r
    ensures r[(SourceValue(source), status)] ==
              (if (SourceValue(source), status) in runs then runs[(SourceValue(source), status)] else 0) + 1
  {
    var key := (SourceValue(source), status);
    runs[key := (if key in runs then runs[key] else 0) + 1]
  }

  /** The status a run is counted under. */
  function RunStatus(r: RunResult): string {
    if r.Completed? then "success" else "failure"
  }

  /** The run counters after a batch: each run counted under its source and status. */
  function CountedAll(runs: map<Metrics.EtlKey, nat>, targets: seq<DataSource>, results: seq<RunResult>)
    : (r: map<Metrics.EtlKey, nat>)
    requires |targets| == |results|
    decreases |targets|
  {
    if targets == [] then runs
    else
      var n := |targets| - 1;
      Bumped(CountedAll(runs, targets[..n], results[..n]), targets[n], RunStatus(results[n]))
  }

  /** The last-duration gauges after a batch: each source holds the duration of its last run. */
  function TimedAll(durations: map<string, real>, targets: seq<DataSource>, elapsed: nat -> real)
    : (r: map<string, real>)
    decreases |targets|
  {
    if targets == [] then durations
    else
      var n := |targets| - 1;
      TimedAll(durations, targets[..n], elapsed)[SourceValue(targets[n]) := elapsed(n)]
  }

  /**
   * Every run of a batch is counted: the counters of a status sum, over the sources, to
   * their old sum plus the number of runs that ended with that status.
   */
  lemma {:induction false} CountedAllCounts(runs: map<Metrics.EtlKey, nat>, targets: seq<DataSource>,
                                            results: seq<RunResult>, s: DataSource, status: string)
    requires |targets| == |results|
    ensures var key := (SourceValue(s), status);
            var after := CountedAll(runs, targets, results);
            (if key in after then after[key] else 0) ==
              (if key in runs then runs[key] else 0) + Runs(targets, results, s, status)
    decreases |targets|
  {
    if targets != [] {
      var n := |targets| - 1;
      CountedAllCounts(runs, targets[..n], results[..n], s, status);
      SourceValueRoundTrip(s, SourceValue(targets[n]));
      SourceValueRoundTrip(targets[n], SourceValue(targets[n]));
    }
  }

  /** How many runs of `s` in the batch ended with `status`. */
  function Runs(targets: seq<DataSource>, results: seq<RunResult>, s: DataSource, status: string): (k: nat)
    requires |targets| == |results|
    ensures k <= |targets|
    decreases |targets|
  {
    if targets == [] then 0
    else
      var n := |targets| - 1;
      Runs(targets[..n], results[..n], s, status) + (if targets[n] == s && RunStatus(results[n]) == status then 1 else 0)
  }

  /** One more run extends the batch by that run, on the state the batch left. */
  lemma RunAllStep(fx: Fixes, c: Caches, t: Tables, w: World, targets: seq<DataSource>, i: nat,
                   forceFull: bool, clocks: nat -> Clock)
    requires i < |targets|
    ensures var b := RunAll(fx, c, t, w, targets[..i], forceFull, clocks);
            var next := RunFor(fx, b.caches, b.tables, w, targets[i], forceFull, clocks(i));
            RunAll(fx, c, t, w, targets[..i + 1], forceFull, clocks) ==
              Batch(b.results + [next.result], next.caches, next.tables)
  {
    assert targets[..i + 1][..i] == targets[..i];
  }

  /** One more run extends the results, the counters and the gauges by that run. */
  lemma FoldsStep(targets: seq<DataSource>, outcomes: seq<RunResult>, r: RunResult, i: nat, elapsed: nat -> real,
                  runs: map<Metrics.EtlKey, nat>, durations: map<string, real>)
    requires i < |targets| && |outcomes| == i
    ensures Collected(targets[..i + 1], outcomes + [r]) ==
              var m := Collected(targets[..i], outcomes);
              if r.Completed? then m[targets[i] := r] else m
    ensures CountedAll(runs, targets[..i + 1], outcomes + [r]) ==
              Bumped(CountedAll(runs, targets[..i], outcomes), targets[i], RunStatus(r))
    ensures TimedAll(durations, targets[..i + 1], elapsed) ==
              TimedAll(durations, targets[..i], elapsed)[SourceValue(targets[i]) := elapsed(i)]
  {
    assert targets[..i + 1][..i] == targets[..i];
    assert (outcomes + [r])[..i] == outcomes;
  }

  /**
   * `ETLService`: the extractor instances made so far, one asset resolver, and which
   * checkpoint query and failure handling it runs (as written, or corrected).
   */
  class EtlService {
    var extractors: map<DataSource, ExtractorClass>
    const resolver: AssetResolver
    const fixes: Fixes

    /** Every extractor made is of the class `EXTRACTORS` registers for its source. */
    predicate Registered()
      reads this
    {
      forall s :: s in extractors ==> extractors[s] == ExtractorFor(s)
    }

    constructor (fixes: Fixes)
      ensures extractors == map[] && this.fixes == fixes && fresh(resolver) && resolver.State() == NoCaches
      ensures Registered()
    {
      extractors := map[];
      resolver := new AssetResolver();
      this.fixes := fixes;
    }

    /** `get_extractor`: the source's instance, made on first use. */
    method GetExtractor(source: DataSource) returns (e: ExtractorClass)
      requires Registered()
      modifies this
      ensures e == ExtractorFor(source) && SourceOf(e) == source
      ensures extractors == old(extractors)[source := e] && Registered()
    {
      if source !in extractors {
        extractors := extractors[source := ExtractorFor(source)];
      }
      e := extractors[source];
    }

    /** `get_last_processed_timestamp`. */
    method GetLastProcessedTimestamp(db: Store.Session, source: DataSource) returns (checkpoint: Option<Instant>)
      ensures checkpoint == ReadCheckpoint(fixes, db.tables.jobs, source)
      ensures checkpoint.Some? ==> exists i :: 0 <= i < |db.tables.jobs| && db.tables.jobs[i].source == source &&
                                              db.tables.jobs[i].status == Success &&
                                              db.tables.jobs[i].lastProcessed == checkpoint
    {
      checkpoint := ReadCheckpoint(fixes, db.tables.jobs, source);
      if checkpoint.Some? {
        var j := Latest(fixes, db.tables.jobs, source).value;
        var i :| 0 <= i < |db.tables.jobs| && db.tables.jobs[i] == j;
      }
    }

    /** `create_etl_job`: a RUNNING row with the next id. */
    method CreateEtlJob(db: Store.Session, source: DataSource, startedAt: Instant) returns (id: nat)
      modifies db
      ensures (db.tables, id) == AddJob(old(db.tables), source, startedAt)
    {
      id := db.tables.nextJobId;
      db.tables := db.tables.(jobs := db.tables.jobs + [EtlJob(id, source, Running, None, 0, startedAt, None, None)],
                              nextJobId := id + 1);
    }

    /** `save_raw_data`: one raw row per payload, in order. */
    method SaveRawData(db: Store.Session, source: DataSource, raw: seq<Value>, createdAt: Instant)
      modifies db
      ensures db.tables == AddRaws(old(db.tables), source, raw, createdAt)
    {
      ghost var t0 := db.tables;
      if raw == [] {
        assert AddRaws(t0, source, raw, createdAt).raws == t0.raws;
        return;
      }
      for i := 0 to |raw|
        invariant db.tables == AddRaws(t0, source, raw[..i], createdAt)
      {
        AddRawsStep(t0, source, raw, i, createdAt);
        db.tables := db.tables.(raws := db.tables.raws + [RawRow(source, raw[i], createdAt)]);
      }
      assert raw[..|raw|] == raw;
    }

    /** `resolve_and_upsert_unified_data`. */
    method ResolveAndUpsert(db: Store.Session, records: seq<Candidate>, raw: seq<Value>, source: DataSource,
                            ingestedAt: Instant) returns (r: Result<nat, RunError>)
      modifies resolver, db
      ensures Staged(r, resolver.State(), db.tables) ==
              Upserted(TargetOf(fixes), old(resolver.State()), old(db.tables), source, raw, records, ingestedAt)
    {
      if records == [] {
        return Ok(0);
      }
      var sourceIds := BuildSourceIdMap(source, raw);
      if sourceIds.Err? {
        return Err(Crashed(sourceIds.error));
      }
      var m := sourceIds.value;
      ghost var c0 := resolver.State();
      ghost var t0 := db.tables;
      var resolved: seq<Pair> := [];
      for i := 0 to |records|
        invariant ResolveAll(c0, t0, source, m, records[..i]) == Staged(Ok(resolved), resolver.State(), db.tables)
      {
        var record := records[i];
        assert records[..i + 1][..i] == records[..i];
        var sourceId := SourceIdFor(m, record);
        if !sourceId.Str? {
          ResolveAllFailsOnward(c0, t0, source, m, records, i + 1);
          return Err(NotText(sourceId));
        }
        var id := resolver.ResolveAsset(db, source, sourceId.s, record.symbol, record.name);
        if id.Err? {
          ResolveAllFailsOnward(c0, t0, source, m, records, i + 1);
          return Err(DbFailed(id.error));
        }
        if id.value != 0 {
          resolved := resolved + [(id.value, record)];
        }
      }
      assert records[..|records|] == records;
      if resolved == [] {
        return Ok(0);
      }
      var values := Values(Dedup(resolved), ingestedAt);
      var upserted := Upsert(db.tables, values, TargetOf(fixes));
      if upserted.Err? {
        return Err(DbFailed(upserted.error));
      }
      db.tables := upserted.value;
      r := Ok(|values|);
    }

    /** `_update_job_status`: outcome, count, completion time, checkpoint and the truncated message. */
    method UpdateJobStatus(db: Store.Session, id: nat, status: EtlStatus, recordsProcessed: nat,
                           checkpoint: Option<Instant>, error: Option<string>, completedAt: Instant)
      modifies db
      ensures db.tables == UpdateJob(old(db.tables), id, status, recordsProcessed, checkpoint, error, completedAt)
    {
      var i := JobIndex(db.tables.jobs, id);
      if i.None? {
        return;
      }
      var stored := error;
      if error.Some? && |error.value| > 990 {
        stored := Some(error.value[..990] + "...");
      }
      var job := db.tables.jobs[i.value].(status := status, recordsProcessed := recordsProcessed,
                                          completedAt := Some(completedAt), lastProcessed := checkpoint,
                                          errorMessage := stored);
      db.tables := db.tables.(jobs := db.tables.jobs[i.value := job]);
    }

    /** `increment_etl_run` and `set_etl_duration` for the run's source. */
    static method RecordRun(metrics: Metrics.MetricsCollector, source: DataSource, status: string, elapsed: real)
      modifies metrics
      ensures metrics.etlRuns == Bumped(old(metrics.etlRuns), source, status)
      ensures metrics.etlLastDuration == old(metrics.etlLastDuration)[SourceValue(source) := elapsed]
      ensures metrics.httpRequests == old(metrics.httpRequests)
    {
      metrics.IncrementEtlRun(SourceValue(source), status);
      metrics.SetEtlDuration(SourceValue(source), elapsed);
    }

    /** The `except` clauses: the session has rolled back to `saved`; the job and the metrics record the failure. */
    method RecordFailure(db: Store.Session, metrics: Metrics.MetricsCollector, w: World, saved: Tables, id: nat,
                         source: DataSource, e: RunError, completedAt: Instant, elapsed: real) returns (r: RunResult)
      modifies resolver, db, metrics
      ensures r == Fail(fixes, w, old(resolver.State()), saved, old(db.tables), id, source, e, completedAt).result
      ensures resolver.State() == Fail(fixes, w, old(resolver.State()), saved, old(db.tables), id, source, e, completedAt).caches
      ensures db.tables == Fail(fixes, w, old(resolver.State()), saved, old(db.tables), id, source, e, completedAt).tables
      ensures metrics.etlRuns == Bumped(old(metrics.etlRuns), source, "failure")
      ensures metrics.etlLastDuration == old(metrics.etlLastDuration)[SourceValue(source) := elapsed]
      ensures metrics.httpRequests == old(metrics.httpRequests)
    {
      ghost var f := Fail(fixes, w, resolver.State(), saved, db.tables, id, source, e, completedAt);
      db.tables := Rollback(saved, db.tables);
      if fixes.Corrected? {
        resolver.ClearCache();
      }
      assert resolver.State() == f.caches;
      var message := ErrorText(w.describe, e);
      UpdateJobStatus(db, id, Failure, 0, None, Some(message), completedAt);
      assert db.tables == f.tables;
      if e.ExtractFailed? && e.failure.ExtractionError? {
        r := RaisedExtraction(message);
      } else {
        r := RaisedDatabase("ETL failed for " + SourceValue(source), message);
      }
      assert r == f.result;
      RecordRun(metrics, source, "failure", elapsed);
    }

    /** The part of `run_etl_for_source` after a successful extraction, in the session of job `id`. */
    method LoadExtracted(db: Store.Session, metrics: Metrics.MetricsCollector, w: World, id: nat, source: DataSource,
                         raw: seq<Value>, records: seq<Candidate>, clock: Clock, elapsed: real) returns (r: RunResult)
      modifies resolver, db, metrics
      ensures Ran(r, resolver.State(), db.tables) ==
              Loaded(fixes, w, old(resolver.State()), old(db.tables), id, source, raw, records, clock)
      ensures metrics.etlRuns == Bumped(old(metrics.etlRuns), source, RunStatus(r))
      ensures metrics.etlLastDuration == old(metrics.etlLastDuration)[SourceValue(source) := elapsed]
      ensures metrics.httpRequests == old(metrics.httpRequests)
    {
      if records == [] {
        UpdateJobStatus(db, id, Success, 0, None, None, clock.completed);
        RecordRun(metrics, source, "success", elapsed);
        return Completed(id, 0, None);
      }
      ghost var c0 := resolver.State();
      var saved := db.tables;
      SaveRawData(db, source, raw, clock.loaded);
      var processed := ResolveAndUpsert(db, records, raw, source, clock.ingested);
      ghost var l := Load(TargetOf(fixes), c0, saved, source, raw, records, clock.loaded, clock.ingested);
      assert Staged(processed, resolver.State(), db.tables) == l;
      if processed.Err? {
        r := RecordFailure(db, metrics, w, saved, id, source, processed.error, clock.completed, elapsed);
        return;
      }
      var latest := MaxTimestamp(records);
      UpdateJobStatus(db, id, Success, processed.value, Some(latest), None, clock.completed);
      RecordRun(metrics, source, "success", elapsed);
      r := Completed(id, processed.value, Some(latest));
    }

    /**
     * `run_etl_for_source`: the run `RunFor` describes, on the database and the
     * resolver's caches, counted in the metrics under its status with its duration.
     */
    method RunEtlForSource(db: Store.Session, metrics: Metrics.MetricsCollector, w: World, source: DataSource,
                           forceFull: bool, clock: Clock, elapsed: real) returns (r: RunResult)
      requires Registered()
      modifies this, resolver, db, metrics
      ensures Ran(r, resolver.State(), db.tables) ==
              RunFor(fixes, old(resolver.State()), old(db.tables), w, source, forceFull, clock)
      ensures Registered() && extractors == old(extractors)[source := ExtractorFor(source)]
      ensures metrics.etlRuns == Bumped(old(metrics.etlRuns), source, RunStatus(r))
      ensures metrics.etlLastDuration == old(metrics.etlLastDuration)[SourceValue(source) := elapsed]
      ensures metrics.httpRequests == old(metrics.httpRequests)
    {
      ghost var c0 := resolver.State();
      ghost var t0 := db.tables;
      var id := CreateEtlJob(db, source, clock.started);
      var saved := db.tables;
      var checkpoint: Option<Instant> := None;
      if !forceFull {
        checkpoint := GetLastProcessedTimestamp(db, source);
      }
      assert checkpoint == CheckpointRead(fixes, t0, source, forceFull, clock);
      var extractor := GetExtractor(source);
      var extracted := ExtractData(w, extractor, checkpoint, clock.normalized);
      if extracted.Err? {
        r := RecordFailure(db, metrics, w, saved, id, source, ExtractFailed(extracted.error), clock.completed, elapsed);
        return;
      }
      r := LoadExtracted(db, metrics, w, id, source, extracted.value.0, extracted.value.1, clock, elapsed);
    }

    /**
     * `run_all_sources` in sequential mode: every target is run in turn on the state the
     * previous run left, a run that raises is left out of the results, and the batch is
     * what `RunAll` describes.
     */
    method RunAllSources(db: Store.Session, metrics: Metrics.MetricsCollector, w: World,
                         sources: Option<seq<DataSource>>, forceFull: bool, clocks: nat -> Clock, elapsed: nat -> real)
      returns (results: map<DataSource, RunResult>)
      requires Registered()
      modifies this, resolver, db, metrics
      ensures var b := RunAll(fixes, old(resolver.State()), old(db.tables), w, Targets(sources), forceFull, clocks);
              results == Collected(Targets(sources), b.results) &&
              resolver.State() == b.caches && db.tables == b.tables &&
              metrics.etlRuns == CountedAll(old(metrics.etlRuns), Targets(sources), b.results)
      ensures metrics.etlLastDuration == TimedAll(old(metrics.etlLastDuration), Targets(sources), elapsed)
      ensures metrics.httpRequests == old(metrics.httpRequests)
      ensures Registered()
    {
      var targets := Targets(sources);
      ghost var c0 := resolver.State();
      ghost var t0 := db.tables;
      ghost var runs0 := metrics.etlRuns;
      ghost var durations0 := metrics.etlLastDuration;
      ghost var outcomes: seq<RunResult> := [];
      results := map[];
      var i := 0;
      while i < |targets|
        invariant 0 <= i <= |targets| && |outcomes| == i
        invariant Registered()
        invariant RunAll(fixes, c0, t0, w, targets[..i], forceFull, clocks) ==
                  Batch(outcomes, resolver.State(), db.tables)
        invariant results == Collected(targets[..i], outcomes)
        invariant metrics.etlRuns == CountedAll(runs0, targets[..i], outcomes)
        invariant metrics.etlLastDuration == TimedAll(durations0, targets[..i], elapsed)
        invariant metrics.httpRequests == old(metrics.httpRequests)
      {
        RunAllStep(fixes, c0, t0, w, targets, i, forceFull, clocks);
        var r := RunEtlForSource(db, metrics, w, targets[i], forceFull, clocks(i), elapsed(i));
        if r.Completed? {
          results := results[targets[i] := r];
        }
        FoldsStep(targets, outcomes, r, i, elapsed, runs0, durations0);
        outcomes := outcomes + [r];
        i := i + 1;
      }
      assert targets[..i] == targets;
    }
  }
}
