/**
 * The irregular verb くる/来る (src/special_verbs/kuru.rs) as a suffix table.
 */
module KuruVerb {
  import opened Wrappers
  import opened Words
  import opened SpecialVerbs
  import Strings

  const Kuru: SpecialVerb := SpecialVerb(
    dict := ("くる", Some("来る")),
    stemPotentialSuf := ("こられ", Some("来られ")),
    stemBaSuf := ("これ", Some("来れ")),
    stemShortSuf := ("こ", Some("来")),
    stemLongSuf := ("き", Some("来")),
    teFormSuf := ("きて", Some("来て")),
    pastSuf := ("きた", Some("来た")),
    negativeShortSuf := ("こない", Some("来ない")),
    negativeLongSuf := ("きません", Some("来ません")),
    causativePassiveSuf := ("こさせられる", Some("来させられる")),
    causativeSuf := ("こさせる", Some("来させる")),
    passiveSuf := ("こられる", Some("来られる")),
    imperativeSuf := ("こい", Some("来い")))

  /** The dictionary pair, and the stem suffix of each word form. */
  lemma KuruSuffixes()
    ensures Kuru.ToStripSuffix() == ("くる", Some("来る"))
    ensures Kuru.Suffix(Stem, Short) == Some(("こ", Some("来")))
    ensures Kuru.Suffix(Stem, Long) == Some(("き", Some("来")))
  {
  }

  /**
   * A word whose readings are a prefix followed by くる/来る is formatted as
   * the same prefixes followed by the inflection's suffixes.
   */
  lemma {:induction false} FormatKeepsPrefix(kanaPrefix: string, kanjiPrefix: string, inflection: Inflection, wf: WordForm)
    requires HasSuffixEntry(inflection)
    ensures var suffix := Kuru.Suffix(inflection, wf).value;
            Kuru.FormatVerb(New(kanaPrefix + "くる", Some(kanjiPrefix + "来る")), inflection, wf)
              == Some(New(kanaPrefix + suffix.0, Some(kanjiPrefix + suffix.1.value)))
  {
    var w := New(kanaPrefix + "くる", Some(kanjiPrefix + "来る"));
    assert w.kana[|w.kana| - 2..] == "くる";
    assert w.kanji.value[|w.kanji.value| - 2..] == "来る";
    assert w.kana[..|w.kana| - 2] == kanaPrefix;
    assert w.kanji.value[..|w.kanji.value| - 2] == kanjiPrefix;
  }

  /**
   * Bare くる/来る gives past きた/来た and short negative こない/来ない; a
   * compound keeps its prefix, so よせくる/寄せ来る gives よせきた/寄せ来た and
   * よせこない/寄せ来ない.
   */
  lemma BareAndCompoundKuru()
    ensures Kuru.FormatVerb(New("くる", Some("来る")), Past, Long) == Some(New("きた", Some("来た")))
    ensures Kuru.FormatVerb(New("くる", Some("来る")), Negative, Short) == Some(New("こない", Some("来ない")))
    ensures Kuru.FormatVerb(New("よせくる", Some("寄せ来る")), Past, Long) == Some(New("よせきた", Some("寄せ来た")))
    ensures Kuru.FormatVerb(New("よせくる", Some("寄せ来る")), Negative, Short)
              == Some(New("よせこない", Some("寄せ来ない")))
  {
    FormatKeepsPrefix("", "", Past, Long);
    FormatKeepsPrefix("", "", Negative, Short);
    assert "" + "くる" == "くる" && "" + "来る" == "来る";
    assert "" + "きた" == "きた" && "" + "来た" == "来た";
    assert "" + "こない" == "こない" && "" + "来ない" == "来ない";
    FormatKeepsPrefix("よせ", "寄せ", Past, Long);
    FormatKeepsPrefix("よせ", "寄せ", Negative, Short);
    assert "よせ" + "くる" == "よせくる" && "寄せ" + "来る" == "寄せ来る";
    assert "よせ" + "きた" == "よせきた" && "寄せ" + "来た" == "寄せ来た";
    assert "よせ" + "こない" == "よせこない" && "寄せ" + "来ない" == "寄せ来ない";
  }

  /**
   * The te suffix ends in て and the past suffix in た, in both readings, so
   * every formatted te or past form ends in that mora.
   */
  lemma TeAndPastEndInMora(w: Word, inflection: Inflection, wf: WordForm)
    requires inflection == Te || inflection == Past
    requires Kuru.FormatVerb(w, inflection, wf).Some?
    ensures var r := Kuru.FormatVerb(w, inflection, wf).value;
            var mora := if inflection == Te then 'て' else 'た';
            && |r.kana| > 0 && r.kana[|r.kana| - 1] == mora
            && (r.kanji.Some? ==> |r.kanji.value| > 0 && r.kanji.value[|r.kanji.value| - 1] == mora)
  {
  }
}
