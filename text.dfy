/** The java.lang.String operations the plugin relies on (toLowerCase, toUpperCase,
    equalsIgnoreCase, replaceAll of a single character), with case folding restricted
    to the ASCII letters. */
module Text {

  /** Character.toLowerCase on ASCII: 'A'..'Z' become 'a'..'z', everything else is kept. */
  function LowerChar(c: char): char {
    if 'A' <= c <= 'Z' then (c as int + 32) as char else c
  }

  /** Character.toUpperCase on ASCII: 'a'..'z' become 'A'..'Z', everything else is kept. */
  function UpperChar(c: char): char {
    if 'a' <= c <= 'z' then (c as int - 32) as char else c
  }

  /** String.toLowerCase */
  function Lower(s: string): string {
    seq(|s|, i requires 0 <= i < |s| => LowerChar(s[i]))
  }

  /** String.toUpperCase */
  function Upper(s: string): string {
    seq(|s|, i requires 0 <= i < |s| => UpperChar(s[i]))
  }

  /** String.replaceAll with a one-character pattern that has no regular-expression
      meaning (the plugin calls it with " " and "_"). */
  function ReplaceAll(s: string, from: char, to: char): string {
    seq(|s|, i requires 0 <= i < |s| => if s[i] == from then to else s[i])
  }

  /** The per-character test of String.regionMatches(ignoreCase = true, ...): equal,
      equal after upper-casing, or equal after upper-casing and then lower-casing. */
  predicate CharsMatchIgnoringCase(a: char, b: char) {
    a == b || UpperChar(a) == UpperChar(b) || LowerChar(UpperChar(a)) == LowerChar(UpperChar(b))
  }

  /** String.equalsIgnoreCase: same length, and every position matches ignoring case. */
  predicate EqualsIgnoreCase(a: string, b: string) {
    |a| == |b| && forall i :: 0 <= i < |a| ==> CharsMatchIgnoringCase(a[i], b[i])
  }

  lemma CharsMatchIffSameLower(a: char, b: char)
    ensures CharsMatchIgnoringCase(a, b) <==> LowerChar(a) == LowerChar(b)
  {
    if 'A' <= a <= 'Z' {
      assert LowerChar(a) as int == a as int + 32;
    }
    if 'A' <= b <= 'Z' {
      assert LowerChar(b) as int == b as int + 32;
    }
  }

  /** Java's equalsIgnoreCase agrees with comparing the lower-cased strings. */
  lemma EqualsIgnoreCaseIffSameLower(a: string, b: string)
    ensures EqualsIgnoreCase(a, b) <==> Lower(a) == Lower(b)
  {
    if |a| == |b| {
      forall i | 0 <= i < |a|
        ensures CharsMatchIgnoringCase(a[i], b[i]) <==> Lower(a)[i] == Lower(b)[i]
      {
        CharsMatchIffSameLower(a[i], b[i]);
      }
      if Lower(a) == Lower(b) {
        assert forall i :: 0 <= i < |a| ==> Lower(a)[i] == Lower(b)[i];
      }
    } else {
      assert |Lower(a)| != |Lower(b)|;
    }
  }

  /** Lower-casing twice is lower-casing once. */
  lemma LowerIdempotent(s: string)
    ensures Lower(Lower(s)) == Lower(s)
  {
  }

  /** Upper-casing twice is upper-casing once. */
  lemma UpperIdempotent(s: string)
    ensures Upper(Upper(s)) == Upper(s)
  {
  }

  /** equalsIgnoreCase is an equivalence relation. */
  lemma EqualsIgnoreCaseIsEquivalence(a: string, b: string, c: string)
    ensures EqualsIgnoreCase(a, a)
    ensures EqualsIgnoreCase(a, b) ==> EqualsIgnoreCase(b, a)
    ensures EqualsIgnoreCase(a, b) && EqualsIgnoreCase(b, c) ==> EqualsIgnoreCase(a, c)
  {
    EqualsIgnoreCaseIffSameLower(a, a);
    EqualsIgnoreCaseIffSameLower(a, b);
    EqualsIgnoreCaseIffSameLower(b, a);
    EqualsIgnoreCaseIffSameLower(b, c);
    EqualsIgnoreCaseIffSameLower(a, c);
  }

  /** A string matches its own lower-cased form ignoring case. */
  lemma EqualsIgnoreCaseLower(s: string)
    ensures EqualsIgnoreCase(s, Lower(s))
  {
    EqualsIgnoreCaseIffSameLower(s, Lower(s));
    LowerIdempotent(s);
  }
}
