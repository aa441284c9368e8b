/**
 * Case-insensitive substring matching, the meaning of `ilike('%term%')`
 * on SQLite: both sides are folded to lower case (ASCII letters only)
 * and the term must occur somewhere in the text.
 */
module Text {

  /** ASCII lower-casing of one character; every other character is kept. */
  function LowerChar(c: char): char
  {
    if 'A' <= c <= 'Z' then (c as int + 32) as char else c
  }

  /** ASCII lower-casing of a string, character by character. */
  function Lower(s: string): (r: string)
    ensures |r| == |s|
  {
    seq(|s|, i requires 0 <= i < |s| => LowerChar(s[i]))
  }

  /** `term` occurs in `text` starting at position `i`. */
  ghost predicate OccursAt(term: string, text: string, i: int)
  {
    0 <= i && i + |term| <= |text| && text[i..i + |term|] == term
  }

  /** The reference definition: `term` occurs in `text` at some position. */
  ghost predicate IsInfix(term: string, text: string)
  {
    exists i :: OccursAt(term, text, i)
  }

  /** Executable substring search: try every start position from the left. */
  function Contains(text: string, term: string): bool
    decreases |text|
  {
    if term <= text then true
    else if text == [] then false
    else Contains(text[1..], term)
  }

  /** The search agrees with the reference definition, in both directions. */
  lemma {:induction false} ContainsIsInfix(text: string, term: string)
    ensures Contains(text, term) <==> IsInfix(term, text)
    decreases |text|
  {
    if term <= text {
      assert OccursAt(term, text, 0);
    } else if text == [] {
    } else {
      ContainsIsInfix(text[1..], term);
      if IsInfix(term, text[1..]) {
        var i :| OccursAt(term, text[1..], i);
        assert text[i + 1..i + 1 + |term|] == text[1..][i..i + |term|];
        assert OccursAt(term, text, i + 1);
      }
      if IsInfix(term, text) {
        var i :| OccursAt(term, text, i);
        if i != 0 {
          assert text[1..][i - 1..i - 1 + |term|] == text[i..i + |term|];
          assert OccursAt(term, text[1..], i - 1);
        }
      }
    }
  }

  /** `ilike('%term%')`: does `term` occur in `text`, ignoring ASCII case? */
  function ContainsIgnoringCase(text: string, term: string): (b: bool)
    ensures b <==> IsInfix(Lower(term), Lower(text))
  {
    ContainsIsInfix(Lower(text), Lower(term));
    Contains(Lower(text), Lower(term))
  }

  /** Every character of a term that occurs in a text also occurs in the text. */
  lemma InfixCharsOccur(term: string, text: string, c: char)
    requires IsInfix(term, text) && c in term
    ensures c in text
  {
    var i :| OccursAt(term, text, i);
    var j :| 0 <= j < |term| && term[j] == c;
    assert text[i + j] == c;
  }

  /**
   * A lower-case letter is absent from the lower-cased text when neither
   * it nor its upper-case form occurs in the text.
   */
  lemma LowerLacks(s: string, c: char)
    requires 'a' <= c <= 'z' && c !in s && (c as int - 32) as char !in s
    ensures c !in Lower(s)
  {
  }

  /** Lower-casing is idempotent, so a term's case never matters to a match. */
  lemma LowerIdempotent(s: string)
    ensures Lower(Lower(s)) == Lower(s)
  {
  }
}
