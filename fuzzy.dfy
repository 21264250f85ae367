/**
 * `difflib.get_close_matches(word, possibilities, n=1, cutoff)`: the candidate
 * that scores highest against `word`, among those scoring at least `cutoff`.
 * The similarity itself (`SequenceMatcher.ratio`) is a parameter with values in
 * [0, 1]; `get_close_matches` scores each candidate `x` as `ratio(x, word)` and
 * ranks the pairs `(score, x)` as Python tuples, so a tie in score goes to the
 * larger string.
 */
module Fuzzy {
  import opened Wrappers
  import Ordering

  type Score = r: real | 0.0 <= r <= 1.0

  /** `SequenceMatcher(None, a, b).ratio()`. It need not be symmetric. */
  type Similarity = (string, string) -> Score

  /** `(sim(a, word), a) >= (sim(b, word), b)` as Python compares tuples. */
  predicate Outranks(sim: Similarity, word: string, a: string, b: string) {
    sim(a, word) > sim(b, word) || (sim(a, word) == sim(b, word) && !Ordering.StrLt(a, b))
  }

  /** The single close match, or None when no candidate reaches the cutoff. */
  function CloseMatch(sim: Similarity, word: string, possibilities: seq<string>, cutoff: real): (r: Option<string>)
    ensures r.Some? ==> r.value in possibilities && sim(r.value, word) >= cutoff
    ensures r.None? <==> forall x :: x in possibilities ==> sim(x, word) < cutoff
    decreases |possibilities|
  {
    if possibilities == [] then None
    else
      var x := possibilities[0];
      var rest := CloseMatch(sim, word, possibilities[1..], cutoff);
      assert forall y :: y in possibilities <==> y == x || y in possibilities[1..];
      if sim(x, word) < cutoff then rest
      else match rest
        case None => Some(x)
        case Some(y) => if Outranks(sim, word, x, y) then Some(x) else Some(y)
  }

  lemma OutranksTransitive(sim: Similarity, word: string, a: string, b: string, c: string)
    requires Outranks(sim, word, a, b) && Outranks(sim, word, b, c)
    ensures Outranks(sim, word, a, c)
  {
    if sim(a, word) == sim(b, word) && sim(b, word) == sim(c, word) {
      if Ordering.StrLt(a, c) {
        if a == b {
        } else if b == c {
        } else {
          Ordering.StrLtTotal(a, b);
          Ordering.StrLtTotal(b, c);
          Ordering.StrLtTransitive(c, b, a);
          Ordering.StrLtTransitive(a, c, a);
          Ordering.StrLtIrreflexive(a);
        }
      }
    }
  }

  lemma OutranksTotal(sim: Similarity, word: string, a: string, b: string)
    ensures Outranks(sim, word, a, b) || Outranks(sim, word, b, a)
  {
    Ordering.StrLtIrreflexive(a);
    if sim(a, word) == sim(b, word) && a != b {
      Ordering.StrLtTotal(a, b);
      if Ordering.StrLt(a, b) && Ordering.StrLt(b, a) {
        Ordering.StrLtTransitive(a, b, a);
      }
    }
  }

  /** The match outranks every candidate that reaches the cutoff. */
  lemma {:induction false} CloseMatchIsBest(sim: Similarity, word: string, possibilities: seq<string>, cutoff: real)
    requires CloseMatch(sim, word, possibilities, cutoff).Some?
    ensures forall x :: x in possibilities && sim(x, word) >= cutoff ==>
              Outranks(sim, word, CloseMatch(sim, word, possibilities, cutoff).value, x)
    decreases |possibilities|
  {
    var x := possibilities[0];
    var tail := possibilities[1..];
    var r := CloseMatch(sim, word, possibilities, cutoff).value;
    var rest := CloseMatch(sim, word, tail, cutoff);
    assert forall y :: y in possibilities <==> y == x || y in tail;
    if rest.Some? {
      CloseMatchIsBest(sim, word, tail, cutoff);
    }
    forall y | y in possibilities && sim(y, word) >= cutoff ensures Outranks(sim, word, r, y) {
      OutranksTotal(sim, word, r, r);
      if y == x {
        if sim(x, word) >= cutoff && rest.Some? && !Outranks(sim, word, x, rest.value) {
          OutranksTotal(sim, word, x, rest.value);
        }
      } else {
        assert y in tail;
        if rest.Some? && r != rest.value {
          OutranksTransitive(sim, word, r, rest.value, y);
        }
      }
    }
  }
}
