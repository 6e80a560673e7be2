/**
 * Case handling of player names: `String.toLowerCase` (the cache key) and
 * `String.equalsIgnoreCase` (the name check of the UUID fast path), both on
 * the ASCII letters only.
 */
module Text {

  /** `Character.toLowerCase` restricted to ASCII. */
  function LowerChar(c: char): char
  {
    if 'A' <= c <= 'Z' then (c as int + 32) as char else c
  }

  /** `Character.toUpperCase` restricted to ASCII. */
  function UpperChar(c: char): char
  {
    if 'a' <= c <= 'z' then (c as int - 32) as char else c
  }

  /** `String.toLowerCase`: every character lowered, the length kept. */
  function Lower(s: string): (r: string)
    ensures |r| == |s|
    ensures forall i :: 0 <= i < |s| ==> r[i] == LowerChar(s[i])
  {
    if s == [] then [] else [LowerChar(s[0])] + Lower(s[1..])
  }

  /** A string in which no upper-case ASCII letter is left. */
  predicate IsLower(s: string)
  {
    forall i :: 0 <= i < |s| ==> !('A' <= s[i] <= 'Z')
  }

  /**
   * One position of `String.regionMatches(true, ...)`, which `equalsIgnoreCase`
   * uses: the characters are equal, or equal once upper-cased, or equal once
   * upper-cased and then lower-cased.
   */
  predicate CharsMatchIgnoringCase(a: char, b: char)
  {
    || a == b
    || UpperChar(a) == UpperChar(b)
    || LowerChar(UpperChar(a)) == LowerChar(UpperChar(b))
  }

  /** `String.equalsIgnoreCase` for a non-null argument. */
  predicate EqualsIgnoreCase(a: string, b: string)
  {
    |a| == |b| && forall i :: 0 <= i < |a| ==> CharsMatchIgnoringCase(a[i], b[i])
  }

  lemma LowerCharIdempotent(c: char)
    ensures LowerChar(LowerChar(c)) == LowerChar(c)
    ensures !('A' <= LowerChar(c) <= 'Z')
  {
  }

  lemma CharsMatchIffSameLower(a: char, b: char)
    ensures CharsMatchIgnoringCase(a, b) <==> LowerChar(a) == LowerChar(b)
  {
  }

  /** A lowered name contains no upper-case letter, and lowering it again changes nothing. */
  lemma {:induction false} LowerIdempotent(s: string)
    ensures IsLower(Lower(s))
    ensures Lower(Lower(s)) == Lower(s)
  {
    var l := Lower(s);
    forall i | 0 <= i < |s|
      ensures Lower(l)[i] == l[i] && !('A' <= l[i] <= 'Z')
    {
      LowerCharIdempotent(s[i]);
    }
  }

  /** Two names are equal ignoring case exactly when they have the same cache key. */
  lemma {:induction false} EqualsIgnoreCaseIffSameLower(a: string, b: string)
    ensures EqualsIgnoreCase(a, b) <==> Lower(a) == Lower(b)
  {
    if EqualsIgnoreCase(a, b) {
      forall i | 0 <= i < |a|
        ensures Lower(a)[i] == Lower(b)[i]
      {
        CharsMatchIffSameLower(a[i], b[i]);
      }
    }
    if Lower(a) == Lower(b) {
      forall i | 0 <= i < |a|
        ensures CharsMatchIgnoringCase(a[i], b[i])
      {
        assert Lower(a)[i] == Lower(b)[i];
        CharsMatchIffSameLower(a[i], b[i]);
      }
    }
  }

  /** `equalsIgnoreCase` is an equivalence relation. */
  lemma EqualsIgnoreCaseIsEquivalence(a: string, b: string, c: string)
    ensures EqualsIgnoreCase(a, a)
    ensures EqualsIgnoreCase(a, b) ==> EqualsIgnoreCase(b, a)
    ensures EqualsIgnoreCase(a, b) && EqualsIgnoreCase(b, c) ==> EqualsIgnoreCase(a, c)
  {
    EqualsIgnoreCaseIffSameLower(a, a);
    EqualsIgnoreCaseIffSameLower(a, b);
    EqualsIgnoreCaseIffSameLower(b, a);
    EqualsIgnoreCaseIffSameLower(b, c);
    EqualsIgnoreCaseIffSameLower(a, c);
  }
}
