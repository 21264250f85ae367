/**
 * The in-memory metrics of the service (app/core/middleware.py): two counters and
 * a gauge, their Prometheus text rendering, and the middleware rule that requests
 * for the metrics page itself are not counted.
 *
 * A duration is a real number of seconds; its `{:.3f}` rendering is a parameter.
 */
module Metrics {
  import Ordering
  import Text

  type HttpKey = (string, int)     // (method, status code)
  type EtlKey = (string, string)   // (source, status)

  /** Python's `<` on `(str, int)` tuples. */
  predicate HttpKeyLt(a: HttpKey, b: HttpKey) {
    Ordering.StrLt(a.0, b.0) || (a.0 == b.0 && a.1 < b.1)
  }

  /** Python's `<` on `(str, str)` tuples. */
  predicate EtlKeyLt(a: EtlKey, b: EtlKey) {
    Ordering.StrLt(a.0, b.0) || (a.0 == b.0 && Ordering.StrLt(a.1, b.1))
  }

  lemma HttpKeyLtIsStrictTotalOrder()
    ensures Ordering.IsStrictTotalOrder(HttpKeyLt)
  {
    Ordering.StrLtIsStrictTotalOrder();
  }

  lemma EtlKeyLtIsStrictTotalOrder()
    ensures Ordering.IsStrictTotalOrder(EtlKeyLt)
  {
    Ordering.StrLtIsStrictTotalOrder();
  }

  const HttpHelp := "# HELP http_requests_total Total number of HTTP requests"
  const HttpType := "# TYPE http_requests_total counter"
  const EtlHelp := "# HELP etl_runs_total Total number of ETL runs"
  const EtlType := "# TYPE etl_runs_total counter"
  const DurationHelp := "# HELP etl_last_duration_seconds Duration of last ETL run in seconds"
  const DurationType := "# TYPE etl_last_duration_seconds gauge"

  function HttpSample(k: HttpKey, count: nat): string {
    "http_requests_total{method=\"" + k.0 + "\",status=\"" + Text.IntToString(k.1) + "\"} " + Text.NatToString(count)
  }

  function EtlSample(k: EtlKey, count: nat): string {
    "etl_runs_total{source=\"" + k.0 + "\",status=\"" + k.1 + "\"} " + Text.NatToString(count)
  }

  function DurationSample(fixed3: real -> string, source: string, seconds: real): string {
    "etl_last_duration_seconds{source=\"" + source + "\"} " + fixed3(seconds)
  }

  /** Every listed key has a value in `m`. */
  predicate KeysIn<K, V>(keys: seq<K>, m: map<K, V>) {
    forall i :: 0 <= i < |keys| ==> keys[i] in m
  }

  /** The sample lines of the keys `keys`, in that order. */
  function HttpSamples(keys: seq<HttpKey>, m: map<HttpKey, nat>): (r: seq<string>)
    requires KeysIn(keys, m)
    ensures |r| == |keys|
    ensures forall i :: 0 <= i < |keys| ==> r[i] == HttpSample(keys[i], m[keys[i]])
  {
    seq(|keys|, i requires 0 <= i < |keys| => HttpSample(keys[i], m[keys[i]]))
  }

  function EtlSamples(keys: seq<EtlKey>, m: map<EtlKey, nat>): (r: seq<string>)
    requires KeysIn(keys, m)
    ensures |r| == |keys|
    ensures forall i :: 0 <= i < |keys| ==> r[i] == EtlSample(keys[i], m[keys[i]])
  {
    seq(|keys|, i requires 0 <= i < |keys| => EtlSample(keys[i], m[keys[i]]))
  }

  function DurationSamples(fixed3: real -> string, keys: seq<string>, m: map<string, real>): (r: seq<string>)
    requires KeysIn(keys, m)
    ensures |r| == |keys|
    ensures forall i :: 0 <= i < |keys| ==> r[i] == DurationSample(fixed3, keys[i], m[keys[i]])
  {
    seq(|keys|, i requires 0 <= i < |keys| => DurationSample(fixed3, keys[i], m[keys[i]]))
  }

  /** The lines of the output, given the order in which each map's keys are listed. */
  function Lines(fixed3: real -> string,
                 httpKeys: seq<HttpKey>, http: map<HttpKey, nat>,
                 etlKeys: seq<EtlKey>, etl: map<EtlKey, nat>,
                 durationKeys: seq<string>, durations: map<string, real>): (r: seq<string>)
    requires KeysIn(httpKeys, http)
    requires KeysIn(etlKeys, etl)
    requires KeysIn(durationKeys, durations)
  {
    [HttpHelp, HttpType] + HttpSamples(httpKeys, http) +
    ["", EtlHelp, EtlType] + EtlSamples(etlKeys, etl) +
    ["", DurationHelp, DurationType] + DurationSamples(fixed3, durationKeys, durations)
  }

  /** `sorted()` of each map's keys. */
  ghost function SortedHttpKeys(m: map<HttpKey, nat>): (r: seq<HttpKey>)
    ensures Ordering.SortedBy(r, HttpKeyLt)
    ensures forall k :: k in r <==> k in m
    ensures KeysIn(r, m)
    ensures |r| == |m.Keys|
  {
    HttpKeyLtIsStrictTotalOrder();
    var r := Ordering.SortedOf(m.Keys, HttpKeyLt);
    Ordering.SortedDistinct(r, HttpKeyLt);
    Ordering.DistinctCard(r, m.Keys);
    r
  }

  ghost function SortedEtlKeys(m: map<EtlKey, nat>): (r: seq<EtlKey>)
    ensures Ordering.SortedBy(r, EtlKeyLt)
    ensures forall k :: k in r <==> k in m
    ensures KeysIn(r, m)
    ensures |r| == |m.Keys|
  {
    EtlKeyLtIsStrictTotalOrder();
    var r := Ordering.SortedOf(m.Keys, EtlKeyLt);
    Ordering.SortedDistinct(r, EtlKeyLt);
    Ordering.DistinctCard(r, m.Keys);
    r
  }

  ghost function SortedSources(m: map<string, real>): (r: seq<string>)
    ensures Ordering.SortedBy(r, Ordering.StrLt)
    ensures forall k :: k in r <==> k in m
    ensures KeysIn(r, m)
    ensures |r| == |m.Keys|
  {
    Ordering.StrLtIsStrictTotalOrder();
    var r := Ordering.SortedOf(m.Keys, Ordering.StrLt);
    Ordering.SortedDistinct(r, Ordering.StrLt);
    Ordering.DistinctCard(r, m.Keys);
    r
  }

  /** The lines of `get_prometheus_output`: each map listed in sorted key order. */
  ghost function PrometheusLines(fixed3: real -> string, http: map<HttpKey, nat>, etl: map<EtlKey, nat>,
                                 durations: map<string, real>): (r: seq<string>)
  {
    Lines(fixed3, SortedHttpKeys(http), http, SortedEtlKeys(etl), etl, SortedSources(durations), durations)
  }

  /** `"\n".join(lines)`. */
  function Join(lines: seq<string>): (r: string)
    decreases |lines|
  {
    if lines == [] then ""
    else if |lines| == 1 then lines[0]
    else Join(lines[..|lines| - 1]) + "\n" + lines[|lines| - 1]
  }

  /**
   * The HELP and TYPE lines of the three metrics are always there, in this order,
   * each block after the first preceded by an empty line; between them come exactly
   * the sample lines of the listed keys.
   */
  lemma LinesHeaders(fixed3: real -> string,
                    httpKeys: seq<HttpKey>, http: map<HttpKey, nat>,
                    etlKeys: seq<EtlKey>, etl: map<EtlKey, nat>,
                    durationKeys: seq<string>, durations: map<string, real>)
    requires KeysIn(httpKeys, http) && KeysIn(etlKeys, etl) && KeysIn(durationKeys, durations)
    ensures var r := Lines(fixed3, httpKeys, http, etlKeys, etl, durationKeys, durations);
            var h := |httpKeys|;
            var e := |etlKeys|;
            |r| == 8 + h + e + |durationKeys| &&
            r[0] == HttpHelp && r[1] == HttpType &&
            r[2 + h] == "" && r[3 + h] == EtlHelp && r[4 + h] == EtlType &&
            r[5 + h + e] == "" && r[6 + h + e] == DurationHelp && r[7 + h + e] == DurationType
  {
    var p1 := [HttpHelp, HttpType] + HttpSamples(httpKeys, http);
    var p2 := p1 + ["", EtlHelp, EtlType] + EtlSamples(etlKeys, etl);
    var r := p2 + ["", DurationHelp, DurationType] + DurationSamples(fixed3, durationKeys, durations);
    assert r == Lines(fixed3, httpKeys, http, etlKeys, etl, durationKeys, durations);
    assert r[0] == p2[0] == p1[0] && r[1] == p2[1] == p1[1];
    assert r[3 + |httpKeys|] == p2[3 + |httpKeys|];
  }

  /** The line below the request counter's TYPE line for the `i`-th listed key is that key's count. */
  lemma LinesHttpSamples(fixed3: real -> string,
                    httpKeys: seq<HttpKey>, http: map<HttpKey, nat>,
                    etlKeys: seq<EtlKey>, etl: map<EtlKey, nat>,
                    durationKeys: seq<string>, durations: map<string, real>)
    requires KeysIn(httpKeys, http) && KeysIn(etlKeys, etl) && KeysIn(durationKeys, durations)
    ensures var r := Lines(fixed3, httpKeys, http, etlKeys, etl, durationKeys, durations);
            |r| == 8 + |httpKeys| + |etlKeys| + |durationKeys| &&
            forall i :: 0 <= i < |httpKeys| ==> r[2 + i] == HttpSample(httpKeys[i], http[httpKeys[i]])
  {
    var hs := HttpSamples(httpKeys, http);
    var p1 := [HttpHelp, HttpType] + hs;
    var p2 := p1 + ["", EtlHelp, EtlType] + EtlSamples(etlKeys, etl);
    var r := p2 + ["", DurationHelp, DurationType] + DurationSamples(fixed3, durationKeys, durations);
    assert r == Lines(fixed3, httpKeys, http, etlKeys, etl, durationKeys, durations);
    forall i | 0 <= i < |httpKeys| ensures r[2 + i] == hs[i] {
      assert r[2 + i] == p2[2 + i] == p1[2 + i];
    }
  }

  /** The line for the `i`-th listed (source, status) pair below the run counter's TYPE line is its count. */
  lemma LinesEtlSamples(fixed3: real -> string,
                    httpKeys: seq<HttpKey>, http: map<HttpKey, nat>,
                    etlKeys: seq<EtlKey>, etl: map<EtlKey, nat>,
                    durationKeys: seq<string>, durations: map<string, real>)
    requires KeysIn(httpKeys, http) && KeysIn(etlKeys, etl) && KeysIn(durationKeys, durations)
    ensures var r := Lines(fixed3, httpKeys, http, etlKeys, etl, durationKeys, durations);
            |r| == 8 + |httpKeys| + |etlKeys| + |durationKeys| &&
            forall i :: 0 <= i < |etlKeys| ==> r[5 + |httpKeys| + i] == EtlSample(etlKeys[i], etl[etlKeys[i]])
  {
    var es := EtlSamples(etlKeys, etl);
    var p1 := [HttpHelp, HttpType] + HttpSamples(httpKeys, http);
    var p2 := p1 + ["", EtlHelp, EtlType] + es;
    var r := p2 + ["", DurationHelp, DurationType] + DurationSamples(fixed3, durationKeys, durations);
    assert r == Lines(fixed3, httpKeys, http, etlKeys, etl, durationKeys, durations);
    forall i | 0 <= i < |etlKeys| ensures r[5 + |httpKeys| + i] == es[i] {
      assert r[5 + |httpKeys| + i] == p2[5 + |httpKeys| + i];
    }
  }

  /** The line for the `i`-th listed source below the gauge's TYPE line is its last duration. */
  lemma LinesDurationSamples(fixed3: real -> string,
                    httpKeys: seq<HttpKey>, http: map<HttpKey, nat>,
                    etlKeys: seq<EtlKey>, etl: map<EtlKey, nat>,
                    durationKeys: seq<string>, durations: map<string, real>)
    requires KeysIn(httpKeys, http) && KeysIn(etlKeys, etl) && KeysIn(durationKeys, durations)
    ensures var r := Lines(fixed3, httpKeys, http, etlKeys, etl, durationKeys, durations);
            |r| == 8 + |httpKeys| + |etlKeys| + |durationKeys| &&
            forall i :: 0 <= i < |durationKeys| ==>
              r[8 + |httpKeys| + |etlKeys| + i] == DurationSample(fixed3, durationKeys[i], durations[durationKeys[i]])
  {
    var ds := DurationSamples(fixed3, durationKeys, durations);
    var p1 := [HttpHelp, HttpType] + HttpSamples(httpKeys, http);
    var p2 := p1 + ["", EtlHelp, EtlType] + EtlSamples(etlKeys, etl);
    var r := p2 + ["", DurationHelp, DurationType] + ds;
    assert r == Lines(fixed3, httpKeys, http, etlKeys, etl, durationKeys, durations);
  }

  /** Every recorded (method, status) pair has a line in the output carrying its count. */
  lemma PrometheusListsEveryRequest(fixed3: real -> string, http: map<HttpKey, nat>, etl: map<EtlKey, nat>,
                                    durations: map<string, real>, k: HttpKey)
    requires k in http
    ensures HttpSample(k, http[k]) in PrometheusLines(fixed3, http, etl, durations)
  {
    var hk := SortedHttpKeys(http);
    var j :| 0 <= j < |hk| && hk[j] == k;
    LinesHttpSamples(fixed3, hk, http, SortedEtlKeys(etl), etl, SortedSources(durations), durations);
    assert PrometheusLines(fixed3, http, etl, durations)[2 + j] == HttpSample(k, http[k]);
  }

  /** Every recorded (source, status) pair has a line in the output carrying its count. */
  lemma PrometheusListsEveryRun(fixed3: real -> string, http: map<HttpKey, nat>, etl: map<EtlKey, nat>,
                                durations: map<string, real>, k: EtlKey)
    requires k in etl
    ensures EtlSample(k, etl[k]) in PrometheusLines(fixed3, http, etl, durations)
  {
    var hk := SortedHttpKeys(http);
    var ek := SortedEtlKeys(etl);
    var j :| 0 <= j < |ek| && ek[j] == k;
    LinesEtlSamples(fixed3, hk, http, ek, etl, SortedSources(durations), durations);
    assert PrometheusLines(fixed3, http, etl, durations)[5 + |hk| + j] == EtlSample(k, etl[k]);
  }

  /** Every source with a recorded duration has a line in the output carrying it. */
  lemma PrometheusListsEveryDuration(fixed3: real -> string, http: map<HttpKey, nat>, etl: map<EtlKey, nat>,
                                     durations: map<string, real>, k: string)
    requires k in durations
    ensures DurationSample(fixed3, k, durations[k]) in PrometheusLines(fixed3, http, etl, durations)
  {
    var hk := SortedHttpKeys(http);
    var ek := SortedEtlKeys(etl);
    var dk := SortedSources(durations);
    var j :| 0 <= j < |dk| && dk[j] == k;
    LinesDurationSamples(fixed3, hk, http, ek, etl, dk, durations);
    assert PrometheusLines(fixed3, http, etl, durations)[8 + |hk| + |ek| + j] == DurationSample(fixed3, k, durations[k]);
  }

  /** `sorted(self.http_requests.items())`, keys only. */
  method SortHttpKeys(m: map<HttpKey, nat>) returns (keys: seq<HttpKey>)
    ensures keys == SortedHttpKeys(m)
  {
    HttpKeyLtIsStrictTotalOrder();
    keys := Ordering.SortSet(m.Keys, HttpKeyLt);
  }

  method SortEtlKeys(m: map<EtlKey, nat>) returns (keys: seq<EtlKey>)
    ensures keys == SortedEtlKeys(m)
  {
    EtlKeyLtIsStrictTotalOrder();
    keys := Ordering.SortSet(m.Keys, EtlKeyLt);
  }

  method SortSources(m: map<string, real>) returns (keys: seq<string>)
    ensures keys == SortedSources(m)
  {
    Ordering.StrLtIsStrictTotalOrder();
    keys := Ordering.SortSet(m.Keys, Ordering.StrLt);
  }

  /** The loop of `get_prometheus_output` over the request counter: one sample line per key, in the given order. */
  method HttpSampleLines(keys: seq<HttpKey>, m: map<HttpKey, nat>) returns (lines: seq<string>)
    requires KeysIn(keys, m)
    ensures lines == HttpSamples(keys, m)
  {
    lines := [];
    for i := 0 to |keys|
      invariant lines == HttpSamples(keys[..i], m)
    {
      lines := lines + [HttpSample(keys[i], m[keys[i]])];
    }
    assert keys[..|keys|] == keys;
  }

  /** The loop over the run counter. */
  method EtlSampleLines(keys: seq<EtlKey>, m: map<EtlKey, nat>) returns (lines: seq<string>)
    requires KeysIn(keys, m)
    ensures lines == EtlSamples(keys, m)
  {
    lines := [];
    for i := 0 to |keys|
      invariant lines == EtlSamples(keys[..i], m)
    {
      lines := lines + [EtlSample(keys[i], m[keys[i]])];
    }
    assert keys[..|keys|] == keys;
  }

  /** The loop over the duration gauge. */
  method DurationSampleLines(fixed3: real -> string, keys: seq<string>, m: map<string, real>) returns (lines: seq<string>)
    requires KeysIn(keys, m)
    ensures lines == DurationSamples(fixed3, keys, m)
  {
    lines := [];
    for i := 0 to |keys|
      invariant lines == DurationSamples(fixed3, keys[..i], m)
    {
      lines := lines + [DurationSample(fixed3, keys[i], m[keys[i]])];
    }
    assert keys[..|keys|] == keys;
  }

  /** `MetricsCollector`: request counts by (method, status), run counts by (source, status), last durations by source. */
  class MetricsCollector {
    var httpRequests: map<HttpKey, nat>
    var etlRuns: map<EtlKey, nat>
    var etlLastDuration: map<string, real>

    constructor ()
      ensures httpRequests == map[] && etlRuns == map[] && etlLastDuration == map[]
    {
      httpRequests := map[];
      etlRuns := map[];
      etlLastDuration := map[];
    }

    method IncrementHttpRequest(httpMethod: string, statusCode: int)
      modifies this
      ensures var key := (httpMethod, statusCode);
              httpRequests == old(httpRequests)[key := (if key in old(httpRequests) then old(httpRequests)[key] else 0) + 1]
      ensures forall k :: k in old(httpRequests) && k != (httpMethod, statusCode) ==> k in httpRequests && httpRequests[k] == old(httpRequests)[k]
      ensures etlRuns == old(etlRuns) && etlLastDuration == old(etlLastDuration)
    {
      var key := (httpMethod, statusCode);
      httpRequests := httpRequests[key := (if key in httpRequests then httpRequests[key] else 0) + 1];
    }

    method IncrementEtlRun(source: string, status: string)
      modifies this
      ensures var key := (source, status);
              etlRuns == old(etlRuns)[key := (if key in old(etlRuns) then old(etlRuns)[key] else 0) + 1]
      ensures forall k :: k in old(etlRuns) && k != (source, status) ==> k in etlRuns && etlRuns[k] == old(etlRuns)[k]
      ensures httpRequests == old(httpRequests) && etlLastDuration == old(etlLastDuration)
    {
      var key := (source, status);
      etlRuns := etlRuns[key := (if key in etlRuns then etlRuns[key] else 0) + 1];
    }

    method SetEtlDuration(source: string, seconds: real)
      modifies this
      ensures etlLastDuration == old(etlLastDuration)[source := seconds]
      ensures httpRequests == old(httpRequests) && etlRuns == old(etlRuns)
    {
      etlLastDuration := etlLastDuration[source := seconds];
    }

    /** `get_prometheus_output`: builds the lines metric by metric, each map in sorted key order. */
    method GetPrometheusOutput(fixed3: real -> string) returns (out: string)
      ensures out == Join(PrometheusLines(fixed3, httpRequests, etlRuns, etlLastDuration))
    {
      var hk := SortHttpKeys(httpRequests);
      var httpLines := HttpSampleLines(hk, httpRequests);
      var ek := SortEtlKeys(etlRuns);
      var etlLines := EtlSampleLines(ek, etlRuns);
      var dk := SortSources(etlLastDuration);
      var durationLines := DurationSampleLines(fixed3, dk, etlLastDuration);
      var lines := [HttpHelp, HttpType] + httpLines + ["", EtlHelp, EtlType] + etlLines +
                   ["", DurationHelp, DurationType] + durationLines;
      out := Join(lines);
    }
  }

  /** The metrics page itself. */
  const MetricsPath := "/metrics"

  /**
   * `MetricsMiddleware.dispatch` once the response is known: every request except
   * one for the metrics page is counted under its method and the response status.
   */
  method Dispatch(collector: MetricsCollector, path: string, httpMethod: string, responseStatus: int) returns (status: int)
    modifies collector
    ensures status == responseStatus
    ensures path == MetricsPath ==> collector.httpRequests == old(collector.httpRequests)
    ensures path != MetricsPath ==>
              var key := (httpMethod, responseStatus);
              collector.httpRequests == old(collector.httpRequests)[key := (if key in old(collector.httpRequests) then old(collector.httpRequests)[key] else 0) + 1]
    ensures collector.etlRuns == old(collector.etlRuns) && collector.etlLastDuration == old(collector.etlLastDuration)
  {
    if path != MetricsPath {
      collector.IncrementHttpRequest(httpMethod, responseStatus);
    }
    status := responseStatus;
  }
}
