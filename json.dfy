/**
 * The decoded JSON values the extractors receive and the service stores as raw
 * payloads, with Python's `dict` operations on them: `get`, item assignment
 * (an existing key keeps its place, a new key goes last) and truthiness.
 */
module Json {
  import opened Wrappers

  datatype Value =
    | Null
    | Bool(b: bool)
    | Int(i: int)
    | Num(r: real)
    | Str(s: string)
    | List(items: seq<Value>)
    | Dict(fields: seq<(string, Value)>)

  /** The keys of a dictionary, in insertion order. */
  function Keys(fields: seq<(string, Value)>): (ks: seq<string>)
    ensures |ks| == |fields|
    ensures forall i :: 0 <= i < |fields| ==> ks[i] == fields[i].0
  {
    seq(|fields|, i requires 0 <= i < |fields| => fields[i].0)
  }

  /** A dictionary holds each key once. */
  predicate DistinctKeys(fields: seq<(string, Value)>) {
    forall i, j :: 0 <= i < j < |fields| ==> fields[i].0 != fields[j].0
  }

  /** `d.get(k)`: the value stored under `k`, if any. */
  function Get(fields: seq<(string, Value)>, k: string): (r: Option<Value>)
    ensures r.Some? ==> exists i :: 0 <= i < |fields| && fields[i] == (k, r.value)
    decreases |fields|
  {
    if fields == [] then None
    else if fields[0].0 == k then Some(fields[0].1)
    else
      assert Keys(fields) == [fields[0].0] + Keys(fields[1..]);
      var r := Get(fields[1..], k);
      assert r.Some? ==> exists i :: 0 <= i < |fields[1..]| && fields[1..][i] == (k, r.value);
      r
  }

  /** A key is found exactly when it is one of the dictionary's keys. */
  lemma {:induction false} GetKeys(fields: seq<(string, Value)>, k: string)
    ensures Get(fields, k).None? <==> k !in Keys(fields)
    decreases |fields|
  {
    if fields != [] {
      KeysCons(fields[0], fields[1..]);
      assert fields == [fields[0]] + fields[1..];
      GetKeys(fields[1..], k);
    }
  }

  /** `d.get(k, default)`. */
  function GetOr(fields: seq<(string, Value)>, k: string, default: Value): (r: Value)
    ensures Get(fields, k).None? ==> r == default
    ensures Get(fields, k).Some? ==> Some(r) == Get(fields, k)
  {
    match Get(fields, k)
    case Some(v) => v
    case None => default
  }

  /** Looking a key up in a list of pairs with one more at the end: the first match wins. */
  lemma {:induction false} GetSnoc(fields: seq<(string, Value)>, k0: string, v0: Value, k: string)
    ensures Get(fields + [(k0, v0)], k) ==
            if Get(fields, k).Some? then Get(fields, k) else if k == k0 then Some(v0) else None
    decreases |fields|
  {
    if fields != [] {
      assert (fields + [(k0, v0)])[1..] == fields[1..] + [(k0, v0)];
      GetSnoc(fields[1..], k0, v0, k);
    }
  }

  /** `d[k] = v`. */
  function Put(fields: seq<(string, Value)>, k: string, v: Value): (r: seq<(string, Value)>)
    decreases |fields|
  {
    if fields == [] then [(k, v)]
    else if fields[0].0 == k then [(k, v)] + fields[1..]
    else [fields[0]] + Put(fields[1..], k, v)
  }

  /** Assignment stores `v` under `k` and changes the value of no other key. */
  lemma {:induction false} PutGet(fields: seq<(string, Value)>, k: string, v: Value)
    ensures Get(Put(fields, k, v), k) == Some(v)
    ensures forall k' :: k' != k ==> Get(Put(fields, k, v), k') == Get(fields, k')
    decreases |fields|
  {
    if fields != [] && fields[0].0 != k {
      PutGet(fields[1..], k, v);
      assert Put(fields, k, v)[1..] == Put(fields[1..], k, v);
    }
  }

  /** One lookup after an assignment. */
  lemma GetAfterPut(fields: seq<(string, Value)>, k: string, v: Value, k': string)
    ensures Get(Put(fields, k, v), k') == if k' == k then Some(v) else Get(fields, k')
  {
    PutGet(fields, k, v);
  }

  /** Assignment keeps the key order: an existing key keeps its place and a new one goes last. */
  lemma {:induction false} PutKeys(fields: seq<(string, Value)>, k: string, v: Value)
    ensures k in Keys(fields) ==> Keys(Put(fields, k, v)) == Keys(fields)
    ensures k !in Keys(fields) ==> Keys(Put(fields, k, v)) == Keys(fields) + [k]
    decreases |fields|
  {
    if fields != [] {
      KeysCons(fields[0], fields[1..]);
      assert fields == [fields[0]] + fields[1..];
      if fields[0].0 == k {
        KeysCons((k, v), fields[1..]);
      } else {
        PutKeys(fields[1..], k, v);
        KeysCons(fields[0], Put(fields[1..], k, v));
      }
    }
  }

  lemma KeysCons(x: (string, Value), rest: seq<(string, Value)>)
    ensures Keys([x] + rest) == [x.0] + Keys(rest)
  {
    var l := Keys([x] + rest);
    var r := [x.0] + Keys(rest);
    forall i | 0 <= i < |l| ensures l[i] == r[i] {
      if i > 0 {
        assert ([x] + rest)[i] == rest[i - 1];
      }
    }
  }

  /** Assignment keeps every key unique. */
  lemma PutDistinct(fields: seq<(string, Value)>, k: string, v: Value)
    requires DistinctKeys(fields)
    ensures DistinctKeys(Put(fields, k, v))
  {
    PutKeys(fields, k, v);
    var r := Put(fields, k, v);
    assert |Keys(r)| == |r|;
    if k !in Keys(fields) {
      forall i, j | 0 <= i < j < |r| ensures r[i].0 != r[j].0 {
        assert Keys(r)[i] == r[i].0 && Keys(r)[j] == r[j].0;
        if j == |fields| {
          assert r[i].0 == Keys(fields)[i];
        } else {
          assert r[i].0 == fields[i].0 && r[j].0 == fields[j].0;
        }
      }
    } else {
      forall i, j | 0 <= i < j < |r| ensures r[i].0 != r[j].0 {
        assert Keys(r)[i] == r[i].0 && Keys(r)[j] == r[j].0;
        assert r[i].0 == fields[i].0 && r[j].0 == fields[j].0;
      }
    }
  }

  /** Python's truthiness: `None`, `False`, zero and empty containers are false. */
  predicate Truthy(v: Value) {
    match v
    case Null => false
    case Bool(b) => b
    case Int(i) => i != 0
    case Num(r) => r != 0.0
    case Str(s) => s != []
    case List(items) => items != []
    case Dict(fields) => fields != []
  }

  /**
   * What iterating a value yields, as `list.extend` consumes it: the items of a
   * list, the keys of a dict, the one-character strings of a string; `None`
   * means the value is not iterable (a `TypeError`).
   */
  function Iterate(v: Value): (r: Option<seq<Value>>)
    ensures v.List? ==> r == Some(v.items)
    ensures (v.Null? || v.Bool? || v.Int? || v.Num?) <==> r.None?
    ensures r.Some? ==> (|r.value| == 0 <==> !Truthy(v))
  {
    match v
    case List(items) => Some(items)
    case Dict(fields) => Some(seq(|fields|, i requires 0 <= i < |fields| => Str(fields[i].0)))
    case Str(s) => Some(seq(|s|, i requires 0 <= i < |s| => Str([s[i]])))
    case _ => None
  }
}

/**
 * The conversions the pipeline borrows from Python's standard library and from
 * pydantic. They are parameters of the model, not reimplemented: text-to-number
 * parsing, `datetime.strptime`, `datetime.fromisoformat`, `datetime.fromtimestamp`
 * and `str()` of a number or a container.
 */
module Library {
  import opened Wrappers
  import opened Json

  /** The five layouts `normalize_timestamp` tries, in this order. */
  datatype TimeFormat =
    | FractionalZulu   // %Y-%m-%dT%H:%M:%S.%fZ
    | Zulu             // %Y-%m-%dT%H:%M:%SZ
    | LocalT           // %Y-%m-%dT%H:%M:%S
    | LocalSpace       // %Y-%m-%d %H:%M:%S
    | DateOnly         // %Y-%m-%d

  /** What `datetime.fromisoformat` makes of a string. */
  datatype IsoParse =
    | IsoInvalid           // ValueError
    | IsoNaive(wall: int)  // no offset: comparing it with an aware datetime raises TypeError
    | IsoAware(utc: int)   // an offset was given; the instant in UTC microseconds

  datatype Lib = Lib(
    floatOf: string -> Option<real>,               // float(s); None when it raises, and for nan/inf (no real)
    intOf: string -> Option<int>,                  // pydantic's int parsing of text
    strptime: (string, TimeFormat) -> Option<int>, // datetime.strptime(s, f) as naive UTC microseconds
    fromIso: string -> IsoParse,                   // datetime.fromisoformat(s)
    fromTimestamp: real -> Option<int>,            // datetime.fromtimestamp(x, tz=utc)
    repr: Value -> string                          // str(v) of a number, list or dict
  )
}
