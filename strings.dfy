/** `src/lib/utils/string.ts`: `pluralize` and `capitalize`. */
module Strings {
  /** `pluralize(word, count)`: the word itself only for a count of exactly 1. */
  function Pluralize(word: string, count: real): (r: string)
    ensures count == 1.0 ==> r == word
    ensures count != 1.0 ==> r == word + "s"
  {
    if count == 1.0 then word else word + "s"
  }

  /** `toUpperCase` of one character, for the Latin letters. */
  function UpperChar(c: char): char
  {
    if 'a' <= c <= 'z' then (c as int - 32) as char else c
  }

  /** `word.charAt(0).toUpperCase() + word.slice(1)` */
  function Capitalize(word: string): (r: string)
  {
    if word == [] then "" else [UpperChar(word[0])] + word[1..]
  }

  /** Only the first character changes, and only by case: the length and
    * the rest are kept, and an empty word stays empty. */
  lemma CapitalizeKeepsRest(word: string)
    ensures |Capitalize(word)| == |word|
    ensures word != [] ==> Capitalize(word)[1..] == word[1..]
    ensures word != [] ==> Capitalize(word)[0] == UpperChar(word[0])
    ensures word != [] && !('a' <= word[0] <= 'z') ==> Capitalize(word) == word
  {
    if word != [] {
      assert Capitalize(word)[1..] == word[1..];
      if !('a' <= word[0] <= 'z') {
        assert Capitalize(word) == [word[0]] + word[1..];
      }
    }
  }

  /** Capitalising twice is capitalising once. */
  lemma CapitalizeIdempotent(word: string)
    ensures Capitalize(Capitalize(word)) == Capitalize(word)
  {
    if word != [] {
      var c := Capitalize(word);
      assert c[0] == UpperChar(word[0]) && c[1..] == word[1..];
      assert UpperChar(UpperChar(word[0])) == UpperChar(word[0]);
    }
  }
}
