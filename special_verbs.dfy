/**
 * Irregular verbs as suffix tables (src/special_verbs/mod.rs): a word ending
 * in the verb's dictionary suffix is inflected by replacing that suffix with
 * the suffix the table gives for the requested inflection, keeping whatever
 * precedes it.
 */
module SpecialVerbs {
  import opened Wrappers
  import opened Words

  /** A kana suffix and an optional kanji suffix. */
  type KanaKanjiPair = (string, Option<string>)

  /** The inflections the suffix table has an entry for. */
  predicate HasSuffixEntry(inflection: Inflection) {
    inflection in {Stem, StemPotential, Te, Past, Passive, Causative, CausativePassive, Negative, Imperative}
  }

  /** The suffix pairs of one irregular verb. */
  datatype SpecialVerb = SpecialVerb(
    dict: KanaKanjiPair,
    stemPotentialSuf: KanaKanjiPair,
    stemBaSuf: KanaKanjiPair,
    stemShortSuf: KanaKanjiPair,
    stemLongSuf: KanaKanjiPair,
    teFormSuf: KanaKanjiPair,
    pastSuf: KanaKanjiPair,
    negativeShortSuf: KanaKanjiPair,
    negativeLongSuf: KanaKanjiPair,
    causativePassiveSuf: KanaKanjiPair,
    causativeSuf: KanaKanjiPair,
    passiveSuf: KanaKanjiPair,
    imperativeSuf: KanaKanjiPair)
  {
    /** The suffix that inflecting replaces: by default the dictionary form. */
    function ToStripSuffix(): KanaKanjiPair {
      dict
    }

    function StemSuf(wf: WordForm): KanaKanjiPair {
      match wf
      case Short => stemShortSuf
      case Long => stemLongSuf
    }

    function NegativeSuf(wf: WordForm): KanaKanjiPair {
      match wf
      case Short => negativeShortSuf
      case Long => negativeLongSuf
    }

    /**
     * The replacement suffix for an inflection: one of the nine table entries,
     * none for any other inflection (the stem-ba entry is never asked for).
     */
    function Suffix(inflection: Inflection, wf: WordForm): (r: Option<KanaKanjiPair>)
      ensures r.Some? <==> HasSuffixEntry(inflection)
      ensures inflection == Stem ==> r == Some(StemSuf(wf))
      ensures inflection == Negative ==> r == Some(NegativeSuf(wf))
    {
      match inflection
      case Stem => Some(StemSuf(wf))
      case StemPotential => Some(stemPotentialSuf)
      case Te => Some(teFormSuf)
      case Past => Some(pastSuf)
      case Passive => Some(passiveSuf)
      case Causative => Some(causativeSuf)
      case CausativePassive => Some(causativePassiveSuf)
      case Negative => Some(NegativeSuf(wf))
      case Imperative => Some(imperativeSuf)
      case _ => None
    }

    /**
     * `format_verb`: the word with the dictionary suffix pair replaced by the
     * inflection's suffix pair. The prefix before the dictionary suffix is
     * kept; fails for an inflection without an entry, for a kana reading
     * without the dictionary suffix, and for a kanji reading without it.
     */
    function FormatVerb(word: Word, inflection: Inflection, wf: WordForm): (r: Option<Word>)
      ensures r.Some? <==>
                && HasSuffixEntry(inflection)
                && word.StripSuffix(ToStripSuffix().0, ToStripSuffix().1).Some?
      ensures r.Some? ==> r.value.inflections == []
      ensures r.Some? ==>
                r.value.kana == word.kana[..|word.kana| - |dict.0|] + Suffix(inflection, wf).value.0
      ensures r.Some? ==>
                (r.value.kanji.Some? <==> word.kanji.Some? && Suffix(inflection, wf).value.1.Some?)
      ensures r.Some? && r.value.kanji.Some? ==>
                r.value.kanji.value ==
                  word.kanji.value[..|word.kanji.value| - |dict.1.value|] + Suffix(inflection, wf).value.1.value
    {
      match Suffix(inflection, wf)
      case None => None
      case Some(replace) =>
        var (kanaSuffix, kanjiSuffix) := ToStripSuffix();
        word.NewWithSuffixReplaced(kanaSuffix, kanjiSuffix, replace.0, replace.1)
    }
  }

  /** Only the stem and the negative entries depend on the word form. */
  lemma OnlyStemAndNegativeDependOnForm(sv: SpecialVerb, inflection: Inflection)
    requires inflection != Stem && inflection != Negative
    ensures sv.Suffix(inflection, Short) == sv.Suffix(inflection, Long)
  {
  }

  /** No word is ever formatted with the stem-ba suffix: that entry is unreachable. */
  lemma StemBaUnreachable(sv: SpecialVerb, word: Word, wf: WordForm)
    ensures sv.FormatVerb(word, StemBa, wf).None?
  {
  }
}
