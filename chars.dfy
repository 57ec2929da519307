/**
 * Character classes used by the tokenizer, restricted to ASCII:
 * Character.isDigit, Character.isLetter, Character.toUpperCase and the
 * regular-expression class \s.
 */
module Chars {

  predicate IsDigit(c: char) {
    '0' <= c <= '9'
  }

  predicate IsLetter(c: char) {
    'A' <= c <= 'Z' || 'a' <= c <= 'z'
  }

  /** Upper-case conversion of one character (ASCII letters only). */
  function Upper(c: char): (u: char)
    ensures 'a' <= c <= 'z' ==> 'A' <= u <= 'Z' && u as int == c as int - 32
    ensures !('a' <= c <= 'z') ==> u == c
    ensures !('a' <= u <= 'z')
  {
    if 'a' <= c <= 'z' then (c as int - 32) as char else c
  }

  /** Every character of `s` is already its own upper case. */
  predicate Uppercased(s: string) {
    forall k :: 0 <= k < |s| ==> Upper(s[k]) == s[k]
  }

  /** `s` with every character upper-cased, one for one. */
  function UpperAll(s: string): (r: string)
    ensures |r| == |s|
    ensures forall k :: 0 <= k < |s| ==> r[k] == Upper(s[k])
    ensures Uppercased(r)
  {
    if s == [] then [] else [Upper(s[0])] + UpperAll(s[1..])
  }

  /** The characters matched by the regular-expression class \s: space, \t, \n, \x0B, \f, \r. */
  predicate IsWhitespace(c: char) {
    c == ' ' || c == '\t' || c == '\n' || c == '\U{0B}' || c == '\U{0C}' || c == '\r'
  }

  /** The text with every whitespace character removed, the rest kept in order. */
  function StripWhitespace(text: string): (r: string)
    ensures |r| <= |text|
    ensures forall k :: 0 <= k < |r| ==> !IsWhitespace(r[k])
    ensures forall c :: c in r <==> c in text && !IsWhitespace(c)
    ensures (forall k :: 0 <= k < |text| ==> !IsWhitespace(text[k])) ==> r == text
  {
    if text == [] then []
    else if IsWhitespace(text[0]) then StripWhitespace(text[1..])
    else [text[0]] + StripWhitespace(text[1..])
  }

  /** Stripping twice removes nothing more than stripping once. */
  lemma StripIdempotent(text: string)
    ensures StripWhitespace(StripWhitespace(text)) == StripWhitespace(text)
  {
  }

  /** One character is kept exactly when it is not whitespace. */
  lemma StripOne(c: char)
    ensures StripWhitespace([c]) == if IsWhitespace(c) then [] else [c]
  {
    assert [c][1..] == [];
  }

  /**
   * Stripping works piece by piece, so with StripOne it fixes the result
   * completely: the non-whitespace characters, in their order, each as
   * often as it occurs.
   */
  lemma {:induction false} StripAppend(a: string, b: string)
    ensures StripWhitespace(a + b) == StripWhitespace(a) + StripWhitespace(b)
    decreases |a|
  {
    if a == [] {
      assert a + b == b;
    } else {
      assert (a + b)[0] == a[0];
      assert (a + b)[1..] == a[1..] + b;
      StripAppend(a[1..], b);
    }
  }
}
