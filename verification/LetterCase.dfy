/** Words whose letters may be small or capital. */
module LetterCase {

  function LowerChar(c: char): char {
    if 'A' <= c <= 'Z' then c - 'A' + 'a' else c
  }

  function Lower(s: string): string {
    seq(|s|, i requires 0 <= i < |s| => LowerChar(s[i]))
  }

  /** The same character, or the capital of that small letter. */
  predicate Matches(c: char, small: char) {
    c == small || ('A' <= c <= 'Z' && c as int + 32 == small as int)
  }

  /** The same word, each of its letters small or capital. */
  predicate Spells(s: string, word: string) {
    |s| == |word| && forall i :: 0 <= i < |s| ==> Matches(s[i], word[i])
  }

  predicate IsSmall(word: string) {
    forall i :: 0 <= i < |word| ==> !('A' <= word[i] <= 'Z')
  }

  lemma LowerMatches(c: char, small: char)
    requires !('A' <= small <= 'Z')
    ensures LowerChar(c) == small <==> Matches(c, small)
  {
  }

  /** Lowering a text gives a word without capitals exactly when the text spells that word. */
  lemma LowerSpells(s: string, word: string)
    requires IsSmall(word)
    ensures Lower(s) == word <==> Spells(s, word)
  {
    forall i | 0 <= i < |s| && i < |word| ensures LowerChar(s[i]) == word[i] <==> Matches(s[i], word[i]) {
      LowerMatches(s[i], word[i]);
    }
    hide LowerChar, Matches;
    assert forall i :: 0 <= i < |s| ==> Lower(s)[i] == LowerChar(s[i]);
  }
}
