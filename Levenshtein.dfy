/**
 * The "did you mean" filter (packages/cerebro-core/src/domain/levenstein.ts),
 * over a textbook Levenshtein distance.
 */
module Levenshtein {
  import opened Strings

  function Min3(a: nat, b: nat, c: nat): nat
  {
    if a <= b && a <= c then a else if b <= c then b else c
  }

  /** Edit distance: the fewest single-character insertions, deletions and substitutions from a to b. */
  function Lev(a: string, b: string): nat
    decreases |a| + |b|
  {
    if |a| == 0 then |b|
    else if |b| == 0 then |a|
    else Min3(Lev(a[1..], b) + 1, Lev(a, b[1..]) + 1,
              Lev(a[1..], b[1..]) + (if a[0] == b[0] then 0 else 1))
  }

  /** A string is at distance 0 from itself. */
  lemma {:induction false} LevSelf(s: string)
    ensures Lev(s, s) == 0
    decreases |s|
  {
    if |s| > 0 {
      LevSelf(s[1..]);
    }
  }

  /**
   * `isSimilar(candidate, query)`: the distance is at most a third of the
   * candidate's length, or the query contains the candidate.
   */
  predicate IsSimilar(candidate: string, query: string)
  {
    3 * Lev(candidate, query) <= |candidate| || Contains(query, candidate)
  }

  /** The test `findAlternatives` applies to one candidate: both sides lowercased. */
  predicate Passes(query: string, candidate: string)
  {
    IsSimilar(ToLower(candidate), ToLower(query))
  }

  /** `findAlternatives(query, candidates)`: the candidates that pass, in input order, duplicates kept. */
  function FindAlternatives(query: string, candidates: seq<string>): (r: seq<string>)
    ensures |r| <= |candidates|
    ensures forall x :: x in r <==> x in candidates && Passes(query, x)
    decreases |candidates|
  {
    if |candidates| == 0 then []
    else
      (if Passes(query, candidates[0]) then [candidates[0]] else [])
      + FindAlternatives(query, candidates[1..])
  }

  /** Filtering distributes over concatenation, so the result keeps the input order. */
  lemma {:induction false} FindAlternativesAppend(query: string, a: seq<string>, b: seq<string>)
    ensures FindAlternatives(query, a + b) == FindAlternatives(query, a) + FindAlternatives(query, b)
    decreases |a|
  {
    if |a| == 0 {
      assert a + b == b;
    } else {
      assert (a + b)[0] == a[0];
      assert (a + b)[1..] == a[1..] + b;
      FindAlternativesAppend(query, a[1..], b);
    }
  }

  /** Each candidate on its own is kept exactly when it passes. */
  lemma FindAlternativesSingle(query: string, x: string)
    ensures FindAlternatives(query, [x]) == if Passes(query, x) then [x] else []
  {
    assert [x][1..] == [];
  }

  /** A candidate equal to the query up to case always passes. */
  lemma ExactMatchPasses(query: string, x: string)
    requires ToLower(x) == ToLower(query)
    ensures Passes(query, x)
  {
    LevSelf(ToLower(x));
  }

  /** The empty candidate always passes: every query contains "". */
  lemma EmptyCandidatePasses(query: string)
    ensures Passes(query, "")
  {
    assert StartsWith(ToLower(query)[0..], "");
  }

  /** Queries that agree up to case give the same alternatives. */
  lemma {:induction false} FindAlternativesCaseInsensitive(q1: string, q2: string, candidates: seq<string>)
    requires ToLower(q1) == ToLower(q2)
    ensures FindAlternatives(q1, candidates) == FindAlternatives(q2, candidates)
    decreases |candidates|
  {
    if |candidates| > 0 {
      FindAlternativesCaseInsensitive(q1, q2, candidates[1..]);
    }
  }

  /** Filtering the alternatives again with the same query changes nothing. */
  lemma {:induction false} FindAlternativesIdempotent(query: string, candidates: seq<string>)
    ensures FindAlternatives(query, FindAlternatives(query, candidates)) == FindAlternatives(query, candidates)
    decreases |candidates|
  {
    if |candidates| > 0 {
      var x := candidates[0];
      var rest := FindAlternatives(query, candidates[1..]);
      FindAlternativesIdempotent(query, candidates[1..]);
      if Passes(query, x) {
        assert FindAlternatives(query, candidates) == [x] + rest;
        FindAlternativesAppend(query, [x], rest);
        FindAlternativesSingle(query, x);
      } else {
        assert [] + rest == rest;
      }
    }
  }
}
