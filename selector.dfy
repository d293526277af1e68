/**
 * The search filter of the token picker: the tokens offered are those of the
 * catalog, minus the token chosen on the other side, whose symbol or name
 * contains the search term, ignoring case.
 */
module Selector {
  import opened Wrappers
  import opened Catalog

  /** `toLowerCase` on one character (the ASCII letters). */
  function LowerChar(ch: char): char {
    if 'A' <= ch <= 'Z' then (ch as int + 32) as char else ch
  }

  function Lower(s: string): (r: string)
    ensures |r| == |s|
    ensures forall i :: 0 <= i < |s| ==> r[i] == LowerChar(s[i])
  {
    seq(|s|, i requires 0 <= i < |s| => LowerChar(s[i]))
  }

  /** `sub` occurs in `s` at position `i`. */
  predicate OccursAt(s: string, sub: string, i: int) {
    0 <= i && i + |sub| <= |s| && s[i..i + |sub|] == sub
  }

  /** `s.includes(sub)` */
  predicate Includes(s: string, sub: string)
    ensures Includes(s, sub) ==> |sub| <= |s|
    ensures |sub| == |s| ==> (Includes(s, sub) <==> s == sub)
  {
    assert s == sub ==> OccursAt(s, sub, 0);
    exists i | 0 <= i <= |s| - |sub| :: OccursAt(s, sub, i)
  }

  /**
   * The search test of one token: its symbol or its name contains the term,
   * ignoring case. An empty term matches every token.
   */
  predicate MatchesTerm(t: Token, term: string)
    ensures term == "" ==> MatchesTerm(t, term)
    ensures MatchesTerm(t, term) ==> |term| <= |t.symbol| || |term| <= |t.name|
  {
    IncludesEmpty(Lower(t.symbol));
    Includes(Lower(t.symbol), Lower(term)) || Includes(Lower(t.name), Lower(term))
  }

  /** `xs` is `ys` with some elements left out, in the same order. */
  ghost predicate IsSubsequence<T>(xs: seq<T>, ys: seq<T>)
    decreases |ys|
  {
    if xs == [] then true
    else if ys == [] then false
    else (xs[0] == ys[0] && IsSubsequence(xs[1..], ys[1..])) || IsSubsequence(xs, ys[1..])
  }

  /** `availableTokens.filter(token => token !== excludeToken && matches(token))`. */
  function FilterTokens(available: seq<Token>, exclude: Option<Token>, term: string): (r: seq<Token>)
    ensures IsSubsequence(r, available)
    ensures forall t :: t in r <==> t in available && exclude != Some(t) && MatchesTerm(t, term)
  {
    if available == [] then []
    else
      var rest := FilterTokens(available[1..], exclude, term);
      if exclude != Some(available[0]) && MatchesTerm(available[0], term) then [available[0]] + rest
      else rest
  }

  /** Every string includes the empty string. */
  lemma IncludesEmpty(s: string)
    ensures Includes(s, "")
  {
    assert OccursAt(s, "", 0);
  }

  /** With an empty search term the picker offers every token but the excluded one, in order. */
  lemma {:induction false} EmptyTermKeepsAll(available: seq<Token>, exclude: Option<Token>)
    ensures forall t :: t in FilterTokens(available, exclude, "") <==> t in available && exclude != Some(t)
    ensures exclude.None? ==> FilterTokens(available, exclude, "") == available
  {
    if available != [] {
      EmptyTermKeepsAll(available[1..], exclude);
      IncludesEmpty(Lower(available[0].symbol));
      forall t | t in available ensures MatchesTerm(t, "") {
        IncludesEmpty(Lower(t.symbol));
      }
    }
  }
}
