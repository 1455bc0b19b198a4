/**
 * The vowel class of a kana syllable (src/umlaut.rs).
 */
module Vowels {

  datatype Umlaut = A | E | I | O | U

  /** The Latin letters the conversion from `char` accepts; any other one panics. */
  predicate IsVowelLetter(c: char) {
    c == 'a' || c == 'e' || c == 'i' || c == 'o' || c == 'u'
  }

  /** The Latin letter naming each vowel class (a reference for the conversion). */
  function Letter(u: Umlaut): char {
    match u
    case A => 'a'
    case E => 'e'
    case I => 'i'
    case O => 'o'
    case U => 'u'
  }

  /** `From<char> for Umlaut`: each vowel letter names its own class. */
  function FromLetter(c: char): (u: Umlaut)
    requires IsVowelLetter(c)
    ensures Letter(u) == c
  {
    match c
    case 'a' => A
    case 'e' => E
    case 'i' => I
    case 'o' => O
    case 'u' => U
  }

  /** Distinct vowel letters give distinct classes. */
  lemma FromLetterInjective(c: char, d: char)
    requires IsVowelLetter(c) && IsVowelLetter(d)
    ensures FromLetter(c) == FromLetter(d) ==> c == d
  {
    if FromLetter(c) == FromLetter(d) {
      calc {
        c;
        Letter(FromLetter(c));
        Letter(FromLetter(d));
        d;
      }
    }
  }

  /** Every one of the five classes is the image of some vowel letter. */
  lemma FromLetterOnto(u: Umlaut)
    ensures exists c :: IsVowelLetter(c) && FromLetter(c) == u
  {
    var c := Letter(u);
    assert IsVowelLetter(c) && FromLetter(c) == u;
  }
}
