/** `String.toUpperCase` restricted to ASCII letters, and the case-insensitive
    equality it induces. */
module JavaStrings {

  /** Upper-cases one ASCII letter; every other character is left as it is. */
  function UpperChar(c: char): (u: char)
    ensures 'a' <= c <= 'z' ==> u as int == c as int - 32
    ensures !('a' <= c <= 'z') ==> u == c
    ensures !('a' <= u <= 'z')
  {
    if 'a' <= c <= 'z' then (c as int - 32) as char else c
  }

  /** `s.toUpperCase()`: the string with every letter upper-cased, character by character. */
  function ToUpper(s: string): (u: string)
    ensures |u| == |s|
    ensures forall i :: 0 <= i < |s| ==> u[i] == UpperChar(s[i])
  {
    if s == [] then [] else [UpperChar(s[0])] + ToUpper(s[1..])
  }

  /** Reference definition of "equal ignoring case": same length, and the two
      characters at every position agree once upper-cased. */
  ghost predicate EqualsIgnoreCase(a: string, b: string) {
    |a| == |b| && forall i :: 0 <= i < |a| ==> UpperChar(a[i]) == UpperChar(b[i])
  }

  /** Two strings upper-case to the same string exactly when they are equal ignoring case. */
  lemma ToUpperEqualIff(a: string, b: string)
    ensures ToUpper(a) == ToUpper(b) <==> EqualsIgnoreCase(a, b)
  {
    if ToUpper(a) == ToUpper(b) {
      assert |a| == |b|;
      forall i | 0 <= i < |a| ensures UpperChar(a[i]) == UpperChar(b[i]) {
        assert ToUpper(a)[i] == ToUpper(b)[i];
      }
    }
    if EqualsIgnoreCase(a, b) {
      assert forall i :: 0 <= i < |a| ==> ToUpper(a)[i] == ToUpper(b)[i];
    }
  }

  /** A string whose upper-cased form is `t` (itself already upper case) is one
      that equals `t` ignoring case. */
  lemma ToUpperIsIgnoreCase(s: string, t: string)
    requires ToUpper(t) == t
    ensures ToUpper(s) == t <==> EqualsIgnoreCase(s, t)
  {
    ToUpperEqualIff(s, t);
  }
}
