/**
 * HTTP method tokens as the guard sees them: the fixed list of mutation
 * verbs, ASCII upper-casing (the model of `String.prototype.toUpperCase`
 * on method names), and the case-insensitive membership test the guard
 * performs before deciding.
 */
module HttpMethods {

  /**
   * `MUTATION_METHODS`: the verbs treated as mutations; every other token
   * is let through.
   */
  const MUTATION_METHODS: seq<string> := ["POST", "PUT", "PATCH", "DELETE"]

  predicate IsAsciiLower(c: char) { 'a' <= c <= 'z' }

  predicate IsAsciiUpper(c: char) { 'A' <= c <= 'Z' }

  /** A token spelled with upper-case ASCII letters only. */
  predicate IsUpperWord(s: string)
  {
    forall i :: 0 <= i < |s| ==> IsAsciiUpper(s[i])
  }

  /** Upper-cases one ASCII letter; every other character is kept. */
  function UpperChar(c: char): char
  {
    if IsAsciiLower(c) then (c as int - 32) as char else c
  }

  /** Upper-cases a method token, character by character. */
  function ToUpper(s: string): (r: string)
    ensures |r| == |s|
  {
    if s == [] then [] else [UpperChar(s[0])] + ToUpper(s[1..])
  }

  /**
   * The guard's classification: upper-case the token, then look it up in
   * the list. It holds exactly when the token spells one of the four verbs,
   * ignoring case.
   */
  function IsMutationMethod(token: string): (b: bool)
    ensures b <==> exists k :: 0 <= k < |MUTATION_METHODS| && SameIgnoringCase(token, MUTATION_METHODS[k])
  {
    UpperInListIffSameIgnoringCase(token);
    ToUpper(token) in MUTATION_METHODS
  }

  /** Two tokens that agree letter for letter once case is ignored. */
  predicate SameIgnoringCase(a: string, b: string)
  {
    |a| == |b| && forall i :: 0 <= i < |a| ==> UpperChar(a[i]) == UpperChar(b[i])
  }

  /**
   * Position i of the upper-cased token is the upper case of position i:
   * a lower-case letter moves down 32 code points, anything else stays.
   */
  lemma {:induction false} ToUpperAt(s: string, i: int)
    requires 0 <= i < |s|
    ensures ToUpper(s)[i] == UpperChar(s[i])
    ensures !IsAsciiLower(ToUpper(s)[i])
    ensures IsAsciiLower(s[i]) ==> ToUpper(s)[i] as int == s[i] as int - 32
    ensures !IsAsciiLower(s[i]) ==> ToUpper(s)[i] == s[i]
  {
    if i > 0 {
      ToUpperAt(s[1..], i - 1);
    }
  }

  /** Upper-casing twice is upper-casing once. */
  lemma ToUpperIdempotent(s: string)
    ensures ToUpper(ToUpper(s)) == ToUpper(s)
  {
  }

  /** A token made only of upper-case letters is left unchanged by ToUpper. */
  lemma UpperWordIsFixed(m: string)
    requires IsUpperWord(m)
    ensures ToUpper(m) == m
  {
  }

  /** The constant list holds exactly four verbs and no repeats. */
  lemma MutationMethodsDistinct()
    ensures |MUTATION_METHODS| == 4
    ensures forall i, j :: 0 <= i < j < |MUTATION_METHODS| ==> MUTATION_METHODS[i] != MUTATION_METHODS[j]
  {
  }

  /** Every verb in the list is non-empty and already in upper case. */
  lemma MutationMethodsUpperCase()
    ensures forall m :: m in MUTATION_METHODS ==> m != [] && IsUpperWord(m) && ToUpper(m) == m
  {
  }

  /** Classification ignores case: a token and its upper-cased form agree. */
  lemma MutationMethodCaseInsensitive(token: string)
    ensures IsMutationMethod(token) == IsMutationMethod(ToUpper(token))
  {
    ToUpperIdempotent(token);
  }

  /** Against a token that is its own upper case, case-blind equality is equality after ToUpper. */
  lemma SameIgnoringCaseAsCanonical(token: string, v: string)
    requires ToUpper(v) == v
    ensures SameIgnoringCase(token, v) <==> ToUpper(token) == v
  {
  }

  /**
   * Upper-casing a token lands in the list exactly when the token spells
   * one of the four verbs, ignoring case.
   */
  lemma UpperInListIffSameIgnoringCase(token: string)
    ensures ToUpper(token) in MUTATION_METHODS <==>
      exists k :: 0 <= k < |MUTATION_METHODS| && SameIgnoringCase(token, MUTATION_METHODS[k])
  {
    MutationMethodsUpperCase();
    forall k | 0 <= k < |MUTATION_METHODS|
      ensures SameIgnoringCase(token, MUTATION_METHODS[k]) <==> ToUpper(token) == MUTATION_METHODS[k]
    {
      SameIgnoringCaseAsCanonical(token, MUTATION_METHODS[k]);
    }
  }

  /**
   * A token holding any character that is not an ASCII letter (a digit,
   * a hyphen as in "M-SEARCH", a space) is never a mutation method.
   */
  lemma NonLetterTokenIsNotMutation(token: string, i: int)
    requires 0 <= i < |token|
    requires !IsAsciiLower(token[i]) && !IsAsciiUpper(token[i])
    ensures !IsMutationMethod(token)
  {
  }

  /** An upper-case token outside the list is not a mutation. */
  lemma UpperWordOutsideListIsNotMutation(m: string)
    requires IsUpperWord(m)
    requires m !in MUTATION_METHODS
    ensures !IsMutationMethod(m)
  {
    UpperWordIsFixed(m);
  }

  /** The four verbs are mutations as listed. */
  lemma MutationVerbsClassified()
    ensures forall m :: m in MUTATION_METHODS ==> IsMutationMethod(m)
  {
  }

  /** The lower-case spelling "post" upper-cases to "POST" and is a mutation. */
  lemma PostInLowerCase()
    ensures ToUpper("post") == "POST"
    ensures IsMutationMethod("post")
  {
  }
}
