/**
 * The static hiragana table (src/alphabet.rs) and the consonant rows it is
 * keyed by (the `Row` enum of src/syllable.rs).
 */
module Alphabet {
  import opened Vowels

  /** A kana row. `NSpecial` stands for ん, which the table does not list. */
  datatype Row =
    | Umlauts // あ,え,い,お,う
    | NSpecial
    | K | G | S | Z | T | D | N | H | B | P | M | R | Y | W

  /** The letters of one row, each with its vowel class, in table order. */
  type Letters = seq<(char, Umlaut)>

  /** The letters of each row. */
  const VowelLetters: Letters := [('あ', A), ('え', E), ('い', I), ('お', O), ('う', U)]
  const KLetters: Letters := [('か', A), ('け', E), ('き', I), ('こ', O), ('く', U)]
  const GLetters: Letters := [('が', A), ('げ', E), ('ぎ', I), ('ご', O), ('ぐ', U)]
  const SLetters: Letters := [('さ', A), ('せ', E), ('し', I), ('そ', O), ('す', U)]
  const ZLetters: Letters := [('ざ', A), ('ぜ', E), ('じ', I), ('ぞ', O), ('ず', U)]
  const TLetters: Letters := [('た', A), ('て', E), ('ち', I), ('と', O), ('つ', U)]
  const DLetters: Letters := [('だ', A), ('で', E), ('ぢ', I), ('ど', O), ('づ', U)]
  const NLetters: Letters := [('な', A), ('ね', E), ('に', I), ('の', O), ('ぬ', U)]
  const HLetters: Letters := [('は', A), ('へ', E), ('ひ', I), ('ほ', O), ('ふ', U)]
  const BLetters: Letters := [('ば', A), ('べ', E), ('び', I), ('ぼ', O), ('ぶ', U)]
  const PLetters: Letters := [('ぱ', A), ('ぺ', E), ('ぴ', I), ('ぽ', O), ('ぷ', U)]
  const MLetters: Letters := [('ま', A), ('め', E), ('み', I), ('も', O), ('む', U)]
  const RLetters: Letters := [('ら', A), ('れ', E), ('り', I), ('ろ', O), ('る', U)]
  const YLetters: Letters := [('や', A), ('よ', O), ('ゆ', U)]
  const WLetters: Letters := [('わ', A), ('わ', O)]

  /** All single hiragana syllables, row by row, in the order they are searched. */
  const HiraganaSyllables: seq<(Row, Letters)> := [
    (Umlauts, VowelLetters),
    (K, KLetters),
    (G, GLetters),
    (S, SLetters),
    (Z, ZLetters),
    (T, TLetters),
    (D, DLetters),
    (N, NLetters),
    (H, HLetters),
    (B, BLetters),
    (P, PLetters),
    (M, MLetters),
    (R, RLetters),
    (Y, YLetters),
    (W, WLetters)
  ]
}

/** The shape of the hiragana table. */
module AlphabetShape {
  import opened Vowels
  import opened Alphabet

  /** The vowel row and the rows K to R each list five letters, one per vowel class, in the order a, e, i, o, u. */
  lemma FullRows(r: nat)
    requires r < 13
    ensures |HiraganaSyllables[r].1| == 5
    ensures HiraganaSyllables[r].1[0].1 == A && HiraganaSyllables[r].1[1].1 == E
    ensures HiraganaSyllables[r].1[2].1 == I && HiraganaSyllables[r].1[3].1 == O
    ensures HiraganaSyllables[r].1[4].1 == U
  {
  }

  /** The Y row has only the a, o and u letters; the W row lists わ twice, as a and as o. */
  lemma ShortRows()
    ensures |HiraganaSyllables| == 15
    ensures HiraganaSyllables[13] == (Y, [('や', A), ('よ', O), ('ゆ', U)])
    ensures HiraganaSyllables[14] == (W, [('わ', A), ('わ', O)])
  {
  }

  /** The table never uses the reserved ん row. */
  lemma NoNSpecialRow(r: nat)
    requires r < |HiraganaSyllables|
    ensures HiraganaSyllables[r].0 != NSpecial
  {
  }
}
