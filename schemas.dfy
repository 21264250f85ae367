/**
 * The field validators of `RawCryptoRecord` (app/ingestion/transformers/schemas.py):
 * symbol clean-up, numeric coercion with null tokens, and timestamp parsing, plus
 * the pydantic field checks of the two API response schemas.
 */
module Schemas {
  import opened Wrappers
  import opened Json
  import opened Library
  import opened Models
  import Text

  /** `normalize_symbol`: a string is stripped and upper-cased; anything else is `str(v).upper()`. */
  function NormalizeSymbol(lib: Lib, v: Value): (r: string)
    ensures Text.IsUpperCase(r)
    ensures v.Str? ==> r == Text.Upper(Text.Strip(v.s))
    ensures v.Null? ==> r == "NONE"
  {
    match v
    case Str(s) =>
      Text.UpperProperties(Text.Strip(s));
      Text.Upper(Text.Strip(s))
    case Null => "NONE"
    case Bool(b) => if b then "TRUE" else "FALSE"
    case Int(i) =>
      Text.UpperProperties(Text.IntToString(i));
      Text.Upper(Text.IntToString(i))
    case _ =>
      Text.UpperProperties(lib.repr(v));
      Text.Upper(lib.repr(v))
  }

  /** A cleaned symbol is clean: validating it again changes nothing. */
  lemma NormalizeSymbolIdempotent(lib: Lib, s: string)
    ensures NormalizeSymbol(lib, Str(NormalizeSymbol(lib, Str(s)))) == NormalizeSymbol(lib, Str(s))
  {
    var t := Text.Strip(s);
    Text.UpperStripCommute(t);
    Text.StripIdempotent(s);
    Text.UpperProperties(t);
  }

  /** A cleaned symbol has no surrounding whitespace. */
  lemma NormalizeSymbolTrimmed(lib: Lib, s: string)
    ensures var r := NormalizeSymbol(lib, Str(s));
            r != [] ==> !Text.IsSpace(r[0]) && !Text.IsSpace(r[|r| - 1])
  {
    Text.StripShape(s);
    var t := Text.Strip(s);
    var r := Text.Upper(t);
    assert r == NormalizeSymbol(lib, Str(s));
    if t != [] {
      assert r[0] == Text.UpperChar(t[0]);
      assert r[|r| - 1] == Text.UpperChar(t[|t| - 1]);
      Text.CaseKeepsSpace(t[0]);
      Text.CaseKeepsSpace(t[|t| - 1]);
    }
  }

  /** The textual spellings of "no value" in the numeric fields. */
  predicate IsNullToken(v: Value) {
    v == Null || v == Str("") || v == Str("N/A")
  }

  /**
   * `coerce_to_float`: the null tokens give None, a number gives itself, text is
   * parsed, and anything that `float()` refuses gives None instead of an error.
   */
  function CoerceToFloat(lib: Lib, v: Value): (r: Option<real>)
    ensures IsNullToken(v) ==> r == None
    ensures v.Num? ==> r == Some(v.r)
    ensures v.Int? ==> r == Some(v.i as real)
    ensures v.Str? && !IsNullToken(v) ==> r == lib.floatOf(v.s)
    ensures v.List? || v.Dict? ==> r == None
  {
    if IsNullToken(v) then None
    else match v
      case Bool(b) => Some(if b then 1.0 else 0.0)
      case Int(i) => Some(i as real)
      case Num(x) => Some(x)
      case Str(s) => lib.floatOf(s)
      case _ => None
  }

  /** A timestamp as it reaches the validator: a `datetime` object or a decoded value. */
  datatype Stamp =
    | Moment(wall: int, offset: Option<int>)  // a datetime; `offset` in microseconds east of UTC, None if naive
    | Decoded(v: Value)                       // text or a number from the payload

  const TimestampFormats: seq<TimeFormat> := [FractionalZulu, Zulu, LocalT, LocalSpace, DateOnly]

  /** The first of `formats` that parses `s`, and what it parses to. */
  function FirstFormat(lib: Lib, s: string, formats: seq<TimeFormat>): (r: Option<Instant>)
    decreases |formats|
  {
    if formats == [] then None
    else match lib.strptime(s, formats[0])
      case Some(t) => Some(t)
      case None => FirstFormat(lib, s, formats[1..])
  }

  /** `FirstFormat` finds exactly the first format that parses, or reports that none does. */
  lemma {:induction false} FirstFormatIsFirst(lib: Lib, s: string, formats: seq<TimeFormat>)
    ensures FirstFormat(lib, s, formats).None? <==>
            forall k :: 0 <= k < |formats| ==> lib.strptime(s, formats[k]).None?
    ensures FirstFormat(lib, s, formats).Some? ==>
            exists k :: 0 <= k < |formats| && lib.strptime(s, formats[k]) == FirstFormat(lib, s, formats) &&
                        forall m :: 0 <= m < k ==> lib.strptime(s, formats[m]).None?
    decreases |formats|
  {
    if formats != [] && lib.strptime(s, formats[0]).None? {
      FirstFormatIsFirst(lib, s, formats[1..]);
      var tail := formats[1..];
      if FirstFormat(lib, s, formats).Some? {
        var k :| 0 <= k < |tail| && lib.strptime(s, tail[k]) == FirstFormat(lib, s, tail) &&
                 forall m :: 0 <= m < k ==> lib.strptime(s, tail[m]).None?;
        assert formats[k + 1] == tail[k];
        forall m | 0 <= m < k + 1 ensures lib.strptime(s, formats[m]).None? {
          if m > 0 { assert formats[m] == tail[m - 1]; }
        }
      } else {
        forall k | 0 <= k < |formats| ensures lib.strptime(s, formats[k]).None? {
          if k > 0 { assert formats[k] == tail[k - 1]; }
        }
      }
    } else if formats != [] {
      assert lib.strptime(s, formats[0]) == FirstFormat(lib, s, formats);
    }
  }

  /**
   * `normalize_timestamp`: a naive datetime is taken as UTC and an aware one is
   * converted to UTC; text is tried against the five formats in order; a number is
   * a Unix time in seconds (`bool` counts as a number in Python). None stands for
   * the `ValueError` of anything else.
   */
  function NormalizeTimestamp(lib: Lib, t: Stamp): (r: Option<Instant>)
    ensures t.Moment? && t.offset.None? ==> r == Some(t.wall)
    ensures t.Moment? && t.offset.Some? ==> r == Some(t.wall - t.offset.value)
    ensures t.Decoded? && t.v.Str? ==> r == FirstFormat(lib, t.v.s, TimestampFormats)
    ensures t.Decoded? && (t.v.Null? || t.v.List? || t.v.Dict?) ==> r == None
  {
    match t
    case Moment(wall, offset) =>
      (match offset case None => Some(wall) case Some(o) => Some(wall - o))
    case Decoded(v) =>
      match v
      case Str(s) => FirstFormat(lib, s, TimestampFormats)
      case Int(i) => lib.fromTimestamp(i as real)
      case Num(x) => lib.fromTimestamp(x)
      case Bool(b) => lib.fromTimestamp(if b then 1.0 else 0.0)
      case _ => None
  }

  /** `datetime.now(timezone.utc)` as the validator sees it. */
  function Now(at: Instant): (t: Stamp)
    ensures t.Moment? && t.offset == Some(0)
  {
    Moment(at, Some(0))
  }

  /** A validated `RawCryptoRecord`. */
  datatype RawRecord = RawRecord(
    symbol: string,
    priceUsd: Option<real>,
    marketCap: Option<real>,
    volume24h: Option<real>,
    timestamp: Instant)

  /** `RawCryptoRecord(...)`: fails exactly when the timestamp cannot be parsed. */
  function MakeRawRecord(lib: Lib, symbol: Value, price: Value, cap: Value, volume: Value, ts: Stamp): (r: Option<RawRecord>)
    ensures r.Some? <==> NormalizeTimestamp(lib, ts).Some?
    ensures r.Some? ==> r.value.symbol == NormalizeSymbol(lib, symbol) &&
                        r.value.priceUsd == CoerceToFloat(lib, price) &&
                        r.value.marketCap == CoerceToFloat(lib, cap) &&
                        r.value.volume24h == CoerceToFloat(lib, volume) &&
                        Some(r.value.timestamp) == NormalizeTimestamp(lib, ts)
  {
    match NormalizeTimestamp(lib, ts)
    case None => None
    case Some(t) =>
      Some(RawRecord(NormalizeSymbol(lib, symbol), CoerceToFloat(lib, price),
                     CoerceToFloat(lib, cap), CoerceToFloat(lib, volume), t))
  }

  // ---- pydantic's lax checks of single fields of the response schemas ----

  /** A required `str` field: present and a string. */
  function RequiredStr(fields: seq<(string, Value)>, k: string): (r: Option<string>)
    ensures r.Some? <==> Get(fields, k).Some? && Get(fields, k).value.Str?
    ensures r.Some? ==> Get(fields, k) == Some(Str(r.value))
  {
    match Get(fields, k)
    case Some(Str(s)) => Some(s)
    case _ => None
  }

  /** The outcome of checking an optional field: refused, or accepted with a value or None. */
  datatype Field<T> = Refused | Accepted(value: Option<T>)

  /** An `Optional[str]` field: absent or null gives None; a non-string is refused. */
  function OptionalStr(fields: seq<(string, Value)>, k: string): (r: Field<string>)
    ensures (Get(fields, k).None? || Get(fields, k) == Some(Null)) ==> r == Accepted(None)
    ensures r == Accepted(None) ==> Get(fields, k).None? || Get(fields, k) == Some(Null)
    ensures r.Accepted? && r.value.Some? ==> Get(fields, k) == Some(Str(r.value.value))
  {
    match Get(fields, k)
    case None => Accepted(None)
    case Some(Null) => Accepted(None)
    case Some(Str(s)) => Accepted(Some(s))
    case Some(_) => Refused
  }

  /** An `Optional[float]` field: numbers, booleans and numeric text are accepted. */
  function OptionalFloat(lib: Lib, fields: seq<(string, Value)>, k: string): (r: Field<real>)
    ensures (Get(fields, k).None? || Get(fields, k) == Some(Null)) ==> r == Accepted(None)
    ensures Get(fields, k).Some? && Get(fields, k).value.Num? ==> r == Accepted(Some(Get(fields, k).value.r))
    ensures Get(fields, k).Some? && (Get(fields, k).value.List? || Get(fields, k).value.Dict?) ==> r == Refused
  {
    match Get(fields, k)
    case None => Accepted(None)
    case Some(Null) => Accepted(None)
    case Some(Num(x)) => Accepted(Some(x))
    case Some(Int(i)) => Accepted(Some(i as real))
    case Some(Bool(b)) => Accepted(Some(if b then 1.0 else 0.0))
    case Some(Str(s)) =>
      (match lib.floatOf(s) case Some(x) => Accepted(Some(x)) case None => Refused)
    case Some(_) => Refused
  }

  /** An `Optional[int]` field: integers, booleans, integral numbers and integer text are accepted. */
  function OptionalIntOk(lib: Lib, fields: seq<(string, Value)>, k: string): (ok: bool)
    ensures (Get(fields, k).None? || Get(fields, k) == Some(Null)) ==> ok
    ensures Get(fields, k).Some? && (Get(fields, k).value.List? || Get(fields, k).value.Dict?) ==> !ok
  {
    match Get(fields, k)
    case None => true
    case Some(Null) => true
    case Some(Int(_)) => true
    case Some(Bool(_)) => true
    case Some(Num(x)) => x.Floor as real == x
    case Some(Str(s)) => lib.intOf(s).Some?
    case Some(_) => false
  }

  /** The timestamp handed on: `last_updated or datetime.now(timezone.utc)`. */
  function StampOf(lastUpdated: Option<string>, now: Instant): (t: Stamp)
    ensures lastUpdated.Some? && lastUpdated.value != [] ==> t == Decoded(Str(lastUpdated.value))
    ensures lastUpdated.None? || lastUpdated.value == [] ==> t == Now(now)
  {
    if lastUpdated.Some? && lastUpdated.value != [] then Decoded(Str(lastUpdated.value)) else Now(now)
  }
}
