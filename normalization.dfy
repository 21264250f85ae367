/**
 * `SymbolNormalizer` (app/ingestion/normalization.py): maps a free-form asset name or
 * ticker to one of seven canonical tickers, by exact lookup of the lower-cased,
 * stripped input, then by recognising a canonical ticker, then by the closest key
 * of the table at similarity 0.8 or more.
 */
module Normalization {
  import opened Wrappers
  import Text
  import Fuzzy
  import Ordering

  /** `CANONICAL_MAP[k]`, or None when `k` is not a key. */
  function Canonical(k: string): (r: Option<string>)
  {
    if k == "bitcoin" || k == "btc" then Some("BTC")
    else if k == "ethereum" || k == "eth" then Some("ETH")
    else if k == "solana" || k == "sol" then Some("SOL")
    else if k == "cardano" || k == "ada" then Some("ADA")
    else if k == "ripple" || k == "xrp" then Some("XRP")
    else if k == "polkadot" || k == "dot" then Some("DOT")
    else if k == "dogecoin" || k == "doge" then Some("DOGE")
    else None
  }

  /** `list(CANONICAL_MAP.keys())`, in the literal's order. */
  const MapKeys: seq<string> := [
    "bitcoin", "btc", "ethereum", "eth", "solana", "sol", "cardano", "ada",
    "ripple", "xrp", "polkadot", "dot", "dogecoin", "doge"]

  /** `VALID_SYMBOLS = sorted(set(CANONICAL_MAP.values()))`. */
  const ValidSymbols: seq<string> := ["ADA", "BTC", "DOGE", "DOT", "ETH", "SOL", "XRP"]

  /** The fuzzy fallback's cutoff. */
  const FuzzyCutoff: real := 0.8

  /** The table is defined exactly on its keys, and its values are the canonical tickers. */
  lemma CanonicalTable(k: string)
    ensures Canonical(k).Some? <==> k in MapKeys
    ensures Canonical(k).Some? ==> Canonical(k).value in ValidSymbols
  {
  }

  /** `VALID_SYMBOLS` is what its definition computes: the table's values, sorted, each once. */
  lemma ValidSymbolsAreSortedValues()
    ensures Ordering.SortedBy(ValidSymbols, Ordering.StrLt)
    ensures forall t :: t in ValidSymbols <==> exists k :: k in MapKeys && Canonical(k) == Some(t)
  {
    Ordering.StrLtIsStrictTotalOrder();
    Ordering.SortedByChain(ValidSymbols, Ordering.StrLt);
    forall t | t in ValidSymbols ensures exists k :: k in MapKeys && Canonical(k) == Some(t) {
      assert Canonical(Text.Lower(t)) == Some(t) && Text.Lower(t) in MapKeys by {
        TickerIsKey(t);
        CanonicalTable(Text.Lower(t));
      }
    }
    forall k | k in MapKeys ensures Canonical(k).Some? && Canonical(k).value in ValidSymbols {
      CanonicalTable(k);
    }
  }

  /** The input as the lookups see it: `input_symbol.lower().strip()`. */
  function Cleaned(input: string): (c: string)
    ensures Text.IsLowerCase(c)
    ensures c == Text.Lower(Text.Strip(input))
  {
    Text.LowerStripCommute(input);
    Text.LowerProperties(Text.Strip(input));
    Text.Strip(Text.Lower(input))
  }

  /** Every canonical ticker, lower-cased, is a key of the table mapping to that ticker. */
  lemma TickerIsKey(t: string)
    requires t in ValidSymbols
    ensures Canonical(Text.Lower(t)) == Some(t)
  {
    var l := Text.Lower(t);
    if t == "ADA" { assert l[0] == 'a' && l[1] == 'd' && l[2] == 'a'; assert l == "ada"; }
    else if t == "BTC" { assert l[0] == 'b' && l[1] == 't' && l[2] == 'c'; assert l == "btc"; }
    else if t == "DOGE" { assert l[0] == 'd' && l[1] == 'o' && l[2] == 'g' && l[3] == 'e'; assert l == "doge"; }
    else if t == "DOT" { assert l[0] == 'd' && l[1] == 'o' && l[2] == 't'; assert l == "dot"; }
    else if t == "ETH" { assert l[0] == 'e' && l[1] == 't' && l[2] == 'h'; assert l == "eth"; }
    else if t == "SOL" { assert l[0] == 's' && l[1] == 'o' && l[2] == 'l'; assert l == "sol"; }
    else { assert l[0] == 'x' && l[1] == 'r' && l[2] == 'p'; assert l == "xrp"; }
  }

  /**
   * The second step never decides: a lower-case string whose upper-cased form is a
   * canonical ticker is that ticker in lower case, which is a key of the table.
   */
  lemma TickerCheckIsSubsumed(c: string)
    requires Text.IsLowerCase(c)
    requires Text.Upper(c) in ValidSymbols
    ensures Canonical(c) == Some(Text.Upper(c))
  {
    Text.LowerUndoesUpper(c);
    TickerIsKey(Text.Upper(c));
  }

  /**
   * The three steps `normalize` takes on the cleaned input: the table, then the
   * canonical tickers, then the best-scoring key at 0.8 or more; `sim` is
   * `SequenceMatcher.ratio`.
   */
  function Steps(sim: Fuzzy.Similarity, cleaned: string): (r: Option<string>)
    requires Text.IsLowerCase(cleaned)
    ensures Canonical(cleaned).Some? ==> r == Canonical(cleaned)
    ensures r.Some? ==> r.value in ValidSymbols
  {
    CanonicalTable(cleaned);
    match Canonical(cleaned)
    case Some(v) => Some(v)
    case None =>
      var upper := Text.Upper(cleaned);
      if upper in ValidSymbols then
        TickerCheckIsSubsumed(cleaned);
        assert false;
        Some(upper)
      else match Fuzzy.CloseMatch(sim, cleaned, MapKeys, FuzzyCutoff)
        case None => None
        case Some(k) =>
          CanonicalTable(k);
          Canonical(k)
  }

  /** `SymbolNormalizer().normalize(input_symbol)`. */
  function Normalize(sim: Fuzzy.Similarity, input: string): (r: Option<string>)
    ensures input == [] ==> r == None
    ensures r.Some? ==> r.value in ValidSymbols
  {
    if input == [] then None else Steps(sim, Cleaned(input))
  }

  /**
   * None means exactly that the input is empty, or that its cleaned form is no key
   * and no key scores 0.8 or more against it; otherwise a key's value is the answer:
   * the cleaned input's own, failing that the closest key's.
   */
  lemma NormalizeOutcome(sim: Fuzzy.Similarity, input: string)
    ensures Normalize(sim, input).None? <==>
              input == [] ||
              (Canonical(Cleaned(input)).None? &&
               forall k :: k in MapKeys ==> sim(k, Cleaned(input)) < FuzzyCutoff)
    ensures input != [] && Canonical(Cleaned(input)).None? ==>
              Normalize(sim, input) ==
                (match Fuzzy.CloseMatch(sim, Cleaned(input), MapKeys, FuzzyCutoff)
                 case None => None
                 case Some(k) => Canonical(k))
  {
    if input != [] {
      var c := Cleaned(input);
      CanonicalTable(c);
      if Canonical(c).None? {
        if Text.Upper(c) in ValidSymbols {
          TickerCheckIsSubsumed(c);
        }
        var m := Fuzzy.CloseMatch(sim, c, MapKeys, FuzzyCutoff);
        if m.Some? {
          CanonicalTable(m.value);
        }
      }
    }
  }

  /** A canonical ticker, upper- or lower-case, normalises to itself. */
  lemma NormalizeTicker(sim: Fuzzy.Similarity, t: string)
    requires t in ValidSymbols
    ensures Normalize(sim, t) == Some(t)
    ensures Normalize(sim, Text.Lower(t)) == Some(t)
  {
    TickerIsKey(t);
    var l := Text.Lower(t);
    assert 'A' <= t[0] <= 'Z' && 'A' <= t[|t| - 1] <= 'Z';
    assert 'a' <= l[0] <= 'z' && 'a' <= l[|l| - 1] <= 'z';
    Text.StripUnpadded(t);
    Text.StripUnpadded(l);
    Text.LowerProperties(t);
    assert Cleaned(t) == l;
    assert Cleaned(l) == l;
  }

  /** The answer does not depend on the case of the input's letters. */
  lemma NormalizeIgnoresCase(sim: Fuzzy.Similarity, s: string)
    ensures Normalize(sim, Text.Upper(s)) == Normalize(sim, s)
    ensures Normalize(sim, Text.Lower(s)) == Normalize(sim, s)
  {
    Text.LowerOfUpper(s);
    Text.LowerProperties(s);
  }

  /** Nor on whitespace around it, as long as something other than whitespace is left. */
  lemma NormalizeIgnoresPadding(sim: Fuzzy.Similarity, s: string)
    requires Text.Strip(s) != []
    ensures Normalize(sim, Text.Strip(s)) == Normalize(sim, s)
  {
    Text.StripIdempotent(s);
    assert Cleaned(Text.Strip(s)) == Cleaned(s);
    assert s != [];
  }
}
