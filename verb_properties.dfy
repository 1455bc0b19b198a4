/**
 * What the conjugation engine promises across all verbs: the stem tables,
 * the order of the overrides, the prefix a する or くる compound keeps, the
 * te/ta sound change, the forms derived from other forms, and the errors.
 */
module VerbProperties {
  import opened Wrappers
  import opened Tables
  import opened Syllables
  import opened Classification
  import opened Words
  import opened SpecialVerbs
  import opened KuruVerb
  import opened Verbs
  import Strings

  /** A form followed by a literal suffix, failing when the form fails. */
  function Then(r: Result<Word>, s: string): (q: Result<Word>)
    ensures q.Ok? <==> r.Ok?
    ensures r.Err? ==> q == r
    ensures r.Ok? ==> q.value == r.value.PushStr(s)
  {
    match r
    case Ok(w) => Ok(w.PushStr(s))
    case Err(e) => Err(e)
  }

  /** Pushing `a + b` and stripping `|b|` characters again leaves `a` pushed. */
  lemma PushThenStripTail(w: Word, a: string, b: string)
    ensures w.PushStr(a + b).StripEnd(|b|) == w.PushStr(a)
  {
    PushStrAppend(w, a, b);
    PushStrThenStripEnd(w.PushStr(a), b);
  }

  /** Two suffixes of the same length of one string are the same string. */
  lemma SameLengthSuffixes(s: string, a: string, b: string)
    requires Strings.IsSuffix(a, s) && Strings.IsSuffix(b, s) && |a| == |b|
    ensures a == b
  {
  }

  /** A word whose kana ends in one two-kana suffix does not end in a different one. */
  lemma EndsInOneOf(w: Word, a: string, b: string)
    requires |a| == |b| && a != b && Strings.IsSuffix(a, w.kana)
    ensures !w.EndsWith(b, None)
  {
    if Strings.IsSuffix(b, w.kana) {
      SameLengthSuffixes(w.kana, a, b);
    }
  }

  // ---------------------------------------------------------------------------
  // Stem tables and map_ending

  /** Every stem table lists exactly the nine godan endings, in the same order. */
  lemma TablesListGodanEndings()
    ensures Keys(NaiTable) == GodanEndings
    ensures Keys(LongTable) == GodanEndings
    ensures Keys(PotentialTable) == GodanEndings
    ensures Keys(BaTable) == GodanEndings
    ensures Keys(VolitionalTable) == GodanEndings
    ensures Keys(TeTable) == GodanEndings
  {
  }

  /**
   * With any stem table, map_ending fails with UnexpectedEnding exactly when
   * the kana reading is empty or does not end in a godan ending.
   */
  lemma StemTableFailsExactly(v: Verb, m: Mappings)
    requires Keys(m) == GodanEndings
    ensures v.MapEnding(m).Err? <==> |v.word.kana| == 0 || v.word.kana[|v.word.kana| - 1] !in GodanEndings
    ensures v.MapEnding(m).Err? ==> v.MapEnding(m).error == UnexpectedEnding
  {
  }

  /**
   * A godan verb meets none of the overrides of the stems (except the
   * polite verbs' long stem), so each stem is its table's image of the
   * ending.
   */
  lemma GodanStemsFromTables(v: Verb)
    requires v.verbType == Godan
    ensures v.NaiStem() == v.MapEnding(NaiTable)
    ensures !v.IsPolite() ==> v.StemLong() == v.MapEnding(LongTable)
    ensures v.StemPotential() == v.MapEnding(PotentialTable)
    ensures v.BaStem() == v.MapEnding(BaTable)
    ensures v.VolitionalStem() == v.MapEnding(VolitionalTable)
  {
    assert !v.IsException();
    forall m: Mappings ensures v.MappedStem(m) == v.MapEnding(m) {
    }
  }

  /**
   * Hence a godan verb's negative forms are a table stem followed by a
   * literal suffix; only the verb ある has its own plain negatives.
   */
  lemma GodanNegativesFromTables(v: Verb)
    requires v.verbType == Godan && v.word.kana != "ある"
    ensures v.Negative(Short) == Then(v.MapEnding(NaiTable), "ない")
    ensures v.NegativePast(Short) == Then(v.MapEnding(NaiTable), "なかった")
    ensures !v.IsPolite() ==> v.Negative(Long) == Then(v.MapEnding(LongTable), "ません")
  {
    GodanNaiStem(v);
    if !v.IsPolite() {
      GodanLongStem(v);
    }
  }

  lemma GodanNaiStem(v: Verb)
    requires v.verbType == Godan
    ensures v.NaiStem() == v.MapEnding(NaiTable)
  {
  }

  lemma GodanLongStem(v: Verb)
    requires v.verbType == Godan && !v.IsPolite()
    ensures v.StemLong() == v.MapEnding(LongTable)
  {
  }

  // ---------------------------------------------------------------------------
  // Ichidan verbs

  /**
   * An ichidan verb's short and long stems are the word without its final る,
   * so its plain negative and polite past add ない and ました to that.
   */
  lemma IchidanStems(v: Verb)
    requires v.verbType == Ichidan
    ensures v.GetStem(Short) == Ok(v.word.StripEnd(1))
    ensures v.GetStem(Long) == Ok(v.word.StripEnd(1))
    ensures v.word.kana != "ある" ==> v.Negative(Short) == Ok(v.word.StripEnd(1).PushStr("ない"))
    ensures v.Past(Long) == Ok(v.word.StripEnd(1).PushStr("ました"))
  {
  }

  /**
   * A godan verb's potential, negative potential, ba and short volitional
   * forms are a table stem followed by a literal suffix.
   */
  lemma GodanPotentialForms(v: Verb)
    requires v.verbType == Godan
    ensures v.Volitional(Short) == Then(v.MapEnding(VolitionalTable), "う")
    ensures v.Potential(Short) == Then(v.MapEnding(PotentialTable), "る")
    ensures v.Potential(Long) == Then(v.MapEnding(PotentialTable), "ます")
    ensures v.NegativePotential(Short) == Then(v.MapEnding(PotentialTable), "ない")
    ensures v.NegativePotential(Long) == Then(v.MapEnding(PotentialTable), "ません")
    ensures v.Ba() == Then(v.MapEnding(BaTable), "ば")
  {
    GodanStemsFromTables(v);
  }

  /** A non-polite godan verb's imperative is its potential stem (the e-stem alone). */
  lemma GodanImperative(v: Verb)
    requires v.verbType == Godan && !v.IsPolite()
    ensures v.Imperative() == v.MapEnding(PotentialTable)
  {
    assert !v.IsException() && v.Imperative() == v.StemPotential();
    GodanStemsFromTables(v);
  }

  /** A non-polite godan verb's desiderative forms are its long stem plus たい/たくない. */
  lemma GodanDesiderative(v: Verb)
    requires v.verbType == Godan && !v.IsPolite()
    ensures v.Desiderative() == Then(v.MapEnding(LongTable), "たい")
    ensures v.NegativeDesiderative() == Then(v.MapEnding(LongTable), "たくない")
  {
    GodanStemsFromTables(v);
  }

  /** A non-polite godan verb's polite present, past and negative past are its long stem plus ます, ました and ませんでした. */
  lemma GodanLongForms(v: Verb)
    requires v.verbType == Godan && !v.IsPolite()
    ensures v.Dictionary(Long) == Then(v.MapEnding(LongTable), "ます")
    ensures v.Past(Long) == Then(v.MapEnding(LongTable), "ました")
    ensures v.NegativePast(Long) == Then(v.MapEnding(LongTable), "ませんでした")
  {
    GodanLongStem(v);
  }

  /** A godan verb's causative, causative passive and passive are its nai stem plus せる, される and れる. */
  lemma GodanCausativeForms(v: Verb)
    requires v.verbType == Godan
    ensures v.Causative() == Then(v.MapEnding(NaiTable), "せる")
    ensures v.CausativePassive() == Then(v.MapEnding(NaiTable), "される")
    ensures v.Passive() == Then(v.MapEnding(NaiTable), "れる")
  {
    GodanNaiStem(v);
  }

  /** An ichidan verb's potential forms put られ in place of its final る. */
  lemma IchidanPotentialForms(v: Verb)
    requires v.verbType == Ichidan
    ensures v.Potential(Short) == Ok(v.word.StripEnd(1).PushStr("られる"))
    ensures v.Potential(Long) == Ok(v.word.StripEnd(1).PushStr("られます"))
    ensures v.NegativePotential(Short) == Ok(v.word.StripEnd(1).PushStr("られない"))
    ensures v.NegativePotential(Long) == Ok(v.word.StripEnd(1).PushStr("られません"))
  {
    var w := v.word.StripEnd(1);
    PushStrAppend(w, "られ", "る");
    PushStrAppend(w, "られ", "ます");
    PushStrAppend(w, "られ", "ない");
    PushStrAppend(w, "られ", "ません");
    assert "られ" + "る" == "られる" && "られ" + "ます" == "られます";
    assert "られ" + "ない" == "られない" && "られ" + "ません" == "られません";
  }

  /**
   * An ichidan verb's imperative, ba, volitional and desiderative forms put
   * ろ, れば, よう, たい and たくない in place of its final る.
   */
  lemma IchidanOtherForms(v: Verb)
    requires v.verbType == Ichidan
    ensures v.Imperative() == Ok(v.word.StripEnd(1).PushStr("ろ"))
    ensures v.Ba() == Ok(v.word.StripEnd(1).PushStr("れば"))
    ensures v.Volitional(Short) == Ok(v.word.StripEnd(1).PushStr("よう"))
    ensures v.Desiderative() == Ok(v.word.StripEnd(1).PushStr("たい"))
    ensures v.NegativeDesiderative() == Ok(v.word.StripEnd(1).PushStr("たくない"))
  {
    var w := v.word.StripEnd(1);
    PushStrAppend(w, "れ", "ば");
    PushStrAppend(w, "よ", "う");
    assert "れ" + "ば" == "れば" && "よ" + "う" == "よう";
  }

  /**
   * An ichidan verb's causative, causative passive and passive put させる,
   * させられる and られる in place of its final る.
   */
  lemma IchidanCausativeForms(v: Verb)
    requires v.verbType == Ichidan
    ensures v.Causative() == Ok(v.word.StripEnd(1).PushStr("させる"))
    ensures v.CausativePassive() == Ok(v.word.StripEnd(1).PushStr("させられる"))
    ensures v.Passive() == Ok(v.word.StripEnd(1).PushStr("られる"))
  {
    PushStrAppend(v.word.StripEnd(1), "ら", "れる");
    assert "ら" + "れる" == "られる";
  }

  /**
   * An ichidan verb's polite present, polite negative, polite negative past
   * and (apart from ある) plain negative past put ます, ません, ませんでした
   * and なかった in place of its final る.
   */
  lemma IchidanNegativeAndPoliteForms(v: Verb)
    requires v.verbType == Ichidan
    ensures v.Dictionary(Long) == Ok(v.word.StripEnd(1).PushStr("ます"))
    ensures v.Negative(Long) == Ok(v.word.StripEnd(1).PushStr("ません"))
    ensures v.NegativePast(Long) == Ok(v.word.StripEnd(1).PushStr("ませんでした"))
    ensures v.word.kana != "ある" ==> v.NegativePast(Short) == Ok(v.word.StripEnd(1).PushStr("なかった"))
  {
  }


  // ---------------------------------------------------------------------------
  // The te and ta forms

  /** The te mora and the ta mora, plain or voiced. */
  predicate MoraPair(te: char, ta: char) {
    (te == 'て' && ta == 'た') || (te == 'で' && ta == 'だ')
  }

  /** Two readings that agree up to a final te/ta mora pair. */
  predicate ReadingPair(te: string, ta: string) {
    && |te| == |ta| > 0
    && te[..|te| - 1] == ta[..|ta| - 1]
    && MoraPair(te[|te| - 1], ta[|ta| - 1])
  }

  /** A te form and a ta form that differ only in their final mora. */
  predicate TeTaPair(te: Word, ta: Word) {
    && ReadingPair(te.kana, ta.kana)
    && (te.kanji.Some? <==> ta.kanji.Some?)
    && (te.kanji.Some? ==> ReadingPair(te.kanji.value, ta.kanji.value))
    && te.inflections == ta.inflections
  }

  lemma PushPair(w: Word, te: char, ta: char)
    requires MoraPair(te, ta)
    ensures TeTaPair(w.Push(te), w.Push(ta))
  {
    assert (w.kana + [te])[..|w.kana|] == w.kana == (w.kana + [ta])[..|w.kana|];
    if w.kanji.Some? {
      var k := w.kanji.value;
      assert (k + [te])[..|k|] == k == (k + [ta])[..|k|];
    }
  }

  lemma ReplacePair(w: Word)
    requires |w.kana| > 0
    ensures TeTaPair(ReplaceLastMora(w, 'て'), ReplaceLastMora(w, 'た'))
  {
    var a := ReplaceLastMora(w, 'て');
    var b := ReplaceLastMora(w, 'た');
    assert a.kana[..|a.kana| - 1] == Strings.Pop(w.kana) == b.kana[..|b.kana| - 1];
    if w.kanji.Some? {
      assert a.kanji.value[..|a.kanji.value| - 1] == Strings.Pop(w.kanji.value) == b.kanji.value[..|b.kanji.value| - 1];
    }
  }

  /** Two results that fail alike, or succeed with a te/ta pair. */
  predicate ResultPair(te: Result<Word>, ta: Result<Word>) {
    && (te.Ok? <==> ta.Ok?)
    && (te.Err? ==> te == ta)
    && (te.Ok? ==> TeTaPair(te.value, ta.value))
  }

  lemma TeRulePair(v: Verb)
    ensures v.TeRule('て').Ok? <==> v.TeRule('た').Ok?
    ensures v.TeRule('て').Err? ==> v.TeRule('て') == v.TeRule('た')
    ensures v.TeRule('て').Ok? ==> TeTaPair(v.TeRule('て').value, v.TeRule('た').value)
  {
    if v.word.EndsWith("いく", Some("行く")) {
      PushPair(New("いっ", Some("行っ")), 'て', 'た');
    } else if v.IsException() && v.IsSuru() {
      SuruPair(v);
    } else if v.IsException() && v.KuruForm(Inflection.Te, Long).Some? {
      KuruPair(v);
    } else if v.word.EndsWith("ある", None) {
      PushPair(New("あっ", None), 'て', 'た');
    } else if v.verbType == Ichidan {
      IchidanPair(v);
    } else {
      TeRuleGodanPair(v);
    }
  }

  lemma SuruPair(v: Verb)
    requires !v.word.EndsWith("いく", Some("行く")) && v.IsException() && v.IsSuru()
    ensures ResultPair(v.TeRule('て'), v.TeRule('た'))
  {
    SuruTeRule(v, 'て');
    SuruTeRule(v, 'た');
    if v.word.kana == "する" {
      PushPair(New("し", Some("為")), 'て', 'た');
    } else {
      var w := v.word.StripEnd(2);
      PushStrAppend(w, "し", "て");
      PushStrAppend(w, "し", "た");
      PushPair(w.PushStr("し"), 'て', 'た');
    }
  }

  lemma KuruPair(v: Verb)
    requires !v.word.EndsWith("いく", Some("行く")) && v.IsException() && !v.IsSuru()
    requires v.KuruForm(Inflection.Te, Long).Some?
    ensures ResultPair(v.TeRule('て'), v.TeRule('た'))
  {
    ReplacePair(v.KuruForm(Inflection.Te, Long).value);
  }

  lemma IchidanPair(v: Verb)
    requires !v.word.EndsWith("いく", Some("行く")) && v.verbType == Ichidan && !v.word.EndsWith("ある", None)
    ensures ResultPair(v.TeRule('て'), v.TeRule('た'))
  {
    PushPair(v.word.StripEnd(1), 'て', 'た');
  }

  lemma TeRuleGodanPair(v: Verb)
    ensures v.TeRuleGodan('て').Ok? <==> v.TeRuleGodan('た').Ok?
    ensures v.TeRuleGodan('て').Err? ==> v.TeRuleGodan('て') == v.TeRuleGodan('た')
    ensures v.TeRuleGodan('て').Ok? ==> TeTaPair(v.TeRuleGodan('て').value, v.TeRuleGodan('た').value)
  {
    if v.MapEnding(TeTable).Ok? {
      var stem := v.MapEnding(TeTable).value;
      if IsVoicingEnding(v.word.kana[|v.word.kana| - 1]) {
        PushPair(stem, 'で', 'だ');
      } else {
        PushPair(stem, 'て', 'た');
      }
    }
  }

  /**
   * The godan te rule when no override applies: the ending gives way to its
   * sound change from the te table, followed by the mora, voiced after ぐ,
   * む, ぶ and ぬ.
   */
  lemma GodanTeRule(v: Verb, m: char, i: nat)
    requires IsTeMora(m) && v.verbType == Godan
    requires !v.word.EndsWith("いく", Some("行く")) && !v.word.EndsWith("ある", None)
    requires |v.word.kana| > 0 && FirstKeyAt(TeTable, v.word.kana[|v.word.kana| - 1], i)
    ensures var ending := v.word.kana[|v.word.kana| - 1];
            v.TeRule(m) == Ok(v.word.StripEnd(1).Push(TeTable[i].1).Push(if IsVoicingEnding(ending) then Voiced(m) else m))
  {
    MapEndingAt(v, TeTable, i);
  }

  /**
   * The plain past and the te form differ only in their final mora (た for
   * て, だ for で), for every verb except いらっしゃる; they fail together.
   */
  lemma PastDiffersFromTeInLastMora(v: Verb)
    requires v.word.kana != "いらっしゃる"
    ensures v.TeForm().Ok? <==> v.Past(Short).Ok?
    ensures v.TeForm().Err? ==> v.TeForm() == v.Past(Short)
    ensures v.TeForm().Ok? ==> TeTaPair(v.TeForm().value, v.Past(Short).value)
  {
    TeRulePair(v);
  }

  /**
   * For a godan verb the te and ta endings are voiced (で, だ) exactly when
   * the verb ends in ぐ, む, ぶ or ぬ, unless an override applies.
   */
  lemma GodanVoicing(v: Verb)
    requires v.verbType == Godan
    requires !v.word.EndsWith("いく", Some("行く")) && !v.word.EndsWith("ある", None)
    requires v.word.kana != "いらっしゃる"
    requires v.TeForm().Ok?
    ensures var te := v.TeForm().value.kana;
            te[|te| - 1] == 'で' <==> IsVoicingEnding(v.word.kana[|v.word.kana| - 1])
    ensures var ta := v.Past(Short).value.kana;
            ta[|ta| - 1] == 'だ' <==> IsVoicingEnding(v.word.kana[|v.word.kana| - 1])
  {
  }

  /**
   * A verb ending in いく or 行く gets the fixed いっ/行っ forms, whatever its
   * class: this override comes before the する and くる ones and keeps no prefix.
   */
  lemma IkuComesFirst(v: Verb)
    requires v.word.EndsWith("いく", Some("行く"))
    ensures v.Past(Short) == Ok(New("いった", Some("行った")))
    ensures v.word.kana != "いらっしゃる" ==> v.TeForm() == Ok(New("いって", Some("行って")))
  {
    assert "いっ" + ['た'] == "いった" && "行っ" + ['た'] == "行った";
    assert "いっ" + ['て'] == "いって" && "行っ" + ['て'] == "行って";
  }

  /**
   * A verb whose kana ends in ある (and that is not an いく verb) gets the
   * fixed あっ forms without kanji; no する or くる override can apply first.
   */
  lemma AruAfterOverrides(v: Verb)
    requires v.word.EndsWith("ある", None) && !v.word.EndsWith("いく", Some("行く"))
    ensures v.Past(Short) == Ok(New("あった", None))
    ensures v.word.kana != "いらっしゃる" ==> v.TeForm() == Ok(New("あって", None))
  {
    EndsInOneOf(v.word, "ある", "する");
    EndsInOneOf(v.word, "ある", "くる");
    assert "あっ" + ['た'] == "あった" && "あっ" + ['て'] == "あって";
    assert v.KuruForm(Inflection.Te, Long).None?;
  }

  // ---------------------------------------------------------------------------
  // する verbs

  /** The kanji reading ends in 行く, which makes the te rule's いく override apply. */
  predicate KanjiEndsInIku(w: Word) {
    w.kanji.Some? && Strings.IsSuffix("行く", w.kanji.value)
  }

  /** An exception verb whose kana is a non-empty prefix followed by する. */
  predicate IsCompoundSuru(v: Verb, prefix: string) {
    v.verbType == Exception && v.word.kana == prefix + "する" && prefix != []
  }

  /** What a compound する verb is not: bare する, a くる or いく verb, いらっしゃる. */
  lemma CompoundSuruFacts(v: Verb, prefix: string)
    requires IsCompoundSuru(v, prefix)
    ensures v.IsException() && v.IsSuru() && v.word.kana != "する" && v.word.kana != "いらっしゃる"
    ensures v.word.StripEnd(2).kana == prefix
    ensures !Strings.IsSuffix("くる", v.word.kana) && !Strings.IsSuffix("いく", v.word.kana)
    ensures forall inflection, wf :: v.KuruForm(inflection, wf).None?
  {
    assert Strings.IsSuffix("する", v.word.kana);
    assert v.word.kana[|v.word.kana| - 2] == 'す';
    EndsInOneOf(v.word, "する", "くる");
    EndsInOneOf(v.word, "する", "いく");
  }

  /**
   * A compound する verb keeps its prefix in every stem: する is replaced by
   * し, でき, すれ or しよ.
   */
  lemma CompoundSuruStems(v: Verb, prefix: string)
    requires IsCompoundSuru(v, prefix)
    ensures v.word.StripEnd(2).kana == prefix
    ensures v.GetStem(Short) == Ok(v.word.StripEnd(2).PushStr("し"))
    ensures v.GetStem(Long) == Ok(v.word.StripEnd(2).PushStr("し"))
    ensures v.StemPotential() == Ok(v.word.StripEnd(2).PushStr("でき"))
    ensures v.BaStem() == Ok(v.word.StripEnd(2).PushStr("すれ"))
    ensures v.VolitionalStem() == Ok(v.word.StripEnd(2).PushStr("しよ"))
  {
    CompoundSuruFacts(v, prefix);
  }

  /**
   * A compound する verb keeps its prefix in the te, ta, imperative,
   * causative, passive, causative passive and ず forms; the te and ta forms
   * only while its kanji reading does not end in 行く.
   */
  lemma CompoundSuruForms(v: Verb, prefix: string)
    requires IsCompoundSuru(v, prefix)
    ensures !KanjiEndsInIku(v.word) ==> v.TeForm() == Ok(v.word.StripEnd(2).PushStr("して"))
    ensures !KanjiEndsInIku(v.word) ==> v.Past(Short) == Ok(v.word.StripEnd(2).PushStr("した"))
    ensures v.Imperative() == Ok(v.word.StripEnd(2).PushStr("しろ"))
    ensures v.Causative() == Ok(v.word.StripEnd(2).PushStr("させる"))
    ensures v.Passive() == Ok(v.word.StripEnd(2).PushStr("される"))
    ensures v.CausativePassive() == Ok(v.word.StripEnd(2).PushStr("させられる"))
    ensures v.Zu() == Ok(v.word.StripEnd(2).PushStr("せず"))
  {
    CompoundSuruFacts(v, prefix);
    assert "し" + ['て'] == "して" && "し" + ['た'] == "した";
  }

  /**
   * Bare する has fixed stems whose kanji reading is 為 (出来 for the
   * potential), whatever kanji reading the word was given.
   */
  lemma BareSuruStems(v: Verb)
    requires v.verbType == Exception && v.word.kana == "する"
    ensures v.GetStem(Short) == Ok(New("し", Some("為")))
    ensures v.GetStem(Long) == Ok(New("し", Some("為")))
    ensures v.StemPotential() == Ok(New("でき", Some("出来")))
    ensures v.BaStem() == Ok(New("すれ", Some("為れ")))
    ensures v.VolitionalStem() == Ok(New("しよ", Some("為よ")))
  {
    assert !Strings.IsSuffix("くる", v.word.kana);
  }

  /** Bare する's potential, ba and volitional forms: できる/出来る, すれば/為れば, しよう/為よう. */
  lemma BareSuruStemForms(v: Verb)
    requires v.verbType == Exception && v.word.kana == "する"
    ensures v.Potential(Short) == Ok(New("できる", Some("出来る")))
    ensures v.Ba() == Ok(New("すれば", Some("為れば")))
    ensures v.Volitional(Short) == Ok(New("しよう", Some("為よう")))
  {
    BareSuruStems(v);
    assert "でき" + ['る'] == "できる" && "出来" + ['る'] == "出来る";
    assert "すれ" + "ば" == "すれば" && "為れ" + "ば" == "為れば";
    assert "しよ" + "う" == "しよう" && "為よ" + "う" == "為よう";
  }

  /** Bare する's te form is して/為て, unless its kanji ends in 行く. */
  lemma BareSuruTeForm(v: Verb)
    requires v.verbType == Exception && v.word.kana == "する" && !KanjiEndsInIku(v.word)
    ensures v.TeForm() == Ok(New("して", Some("為て")))
  {
    BareSuruNotIku(v);
    SuruTeRule(v, 'て');
    assert "し" + ['て'] == "して" && "為" + ['て'] == "為て";
  }

  /** Bare する's past is した/為た, unless its kanji ends in 行く. */
  lemma BareSuruPast(v: Verb)
    requires v.verbType == Exception && v.word.kana == "する" && !KanjiEndsInIku(v.word)
    ensures v.Past(Short) == Ok(New("した", Some("為た")))
  {
    BareSuruNotIku(v);
    SuruTeRule(v, 'た');
    assert "し" + ['た'] == "した" && "為" + ['た'] == "為た";
  }

  lemma BareSuruNotIku(v: Verb)
    requires v.verbType == Exception && v.word.kana == "する" && !KanjiEndsInIku(v.word)
    ensures v.IsException() && v.IsSuru() && !v.word.EndsWith("いく", Some("行く"))
  {
    assert !Strings.IsSuffix("いく", v.word.kana);
  }

  /** For a する verb that is not an いく verb the te rule replaces する by し and the mora. */
  lemma SuruTeRule(v: Verb, m: char)
    requires IsTeMora(m) && v.IsException() && v.IsSuru() && !v.word.EndsWith("いく", Some("行く"))
    ensures v.TeRule(m) == Ok(v.SuruForm("し" + [m], "し" + [m], "為" + [m]))
  {
  }

  /** Bare する's other fixed forms. */
  lemma BareSuruForms(v: Verb)
    requires v.verbType == Exception && v.word.kana == "する"
    ensures v.Imperative() == Ok(New("しろ", Some("為ろ")))
    ensures v.Causative() == Ok(New("させる", Some("為せる")))
    ensures v.Passive() == Ok(New("される", Some("為れる")))
    ensures v.CausativePassive() == Ok(New("させられる", Some("為せられる")))
    ensures v.Zu() == Ok(New("せず", Some("為ず")))
  {
  }

  /** The ず form tests for する without looking at the verb class. */
  lemma ZuSuruAnyClass(v: Verb, prefix: string)
    requires v.word.kana == prefix + "する" && prefix != []
    ensures v.Zu() == Ok(v.word.StripEnd(2).PushStr("せず"))
  {
    assert Strings.IsSuffix("する", v.word.kana);
    assert v.word.kana != "する";
  }

  // ---------------------------------------------------------------------------
  // Polite verbs

  /**
   * The five polite verbs take the word without る plus い as their long
   * stem and, unless ichidan, as their imperative.
   */
  lemma PoliteStemAndImperative(v: Verb)
    requires v.IsPolite() && v.verbType != Ichidan
    ensures v.GetStem(Long) == Ok(v.word.StripEnd(1).PushStr("い"))
    ensures v.Imperative() == Ok(v.word.StripEnd(1).PushStr("い"))
  {
    assert !Strings.IsSuffix("くる", v.word.kana) && !Strings.IsSuffix("する", v.word.kana);
  }

  /** The te form of いらっしゃる is the fixed いらして, without kanji. */
  lemma IrassharuTeForm(v: Verb)
    requires v.word.kana == "いらっしゃる"
    ensures v.TeForm() == Ok(New("いらして", None))
  {
  }

  // ---------------------------------------------------------------------------
  // Forms derived from other forms

  /**
   * The negative te form, the negative ba form and the ず form are the ない
   * stem plus なくて, なければ and ず, for every verb but ある (and, for ず,
   * every verb not ending in する).
   */
  lemma NegativeFormsFromNaiStem(v: Verb)
    requires v.word.kana != "ある"
    ensures v.NegativeTeForm() == Then(v.NaiStem(), "なくて")
    ensures v.NegativeBa() == Then(v.NaiStem(), "なければ")
    ensures !v.IsSuru() ==> v.Zu() == Then(v.NaiStem(), "ず")
  {
    if v.NaiStem().Ok? {
      var w := v.NaiStem().value;
      PushThenStripTail(w, "な", "い");
      PushStrAppend(w, "な", "くて");
      PushStrAppend(w, "な", "ければ");
      PushThenStripTail(w, [], "ない");
      assert [] + "ない" == "ない";
      assert w.PushStr([]) == w;
      assert "な" + "い" == "ない" && "な" + "くて" == "なくて" && "な" + "ければ" == "なければ";
    }
  }

  /** ある's ず form is just ず, without kanji. */
  lemma AruZu(v: Verb)
    requires v.word.kana == "ある"
    ensures v.Zu() == Ok(New("ず", None))
  {
    assert !Strings.IsSuffix("する", v.word.kana);
    assert New("ない", None).StripEnd(2) == New([], None);
    assert [] + "ず" == "ず";
  }

  /** The tara forms are the plain past forms plus ら. */
  lemma TaraFromPast(v: Verb)
    ensures v.Tara() == Then(v.Past(Short), "ら")
    ensures v.NegativeTara() == Then(v.NegativePast(Short), "ら")
  {
  }

  /** The polite volitional is the long stem plus ましょう. */
  lemma PoliteVolitional(v: Verb)
    ensures v.Volitional(Long) == Then(v.GetStem(Long), "ましょう")
  {
    if v.StemLong().Ok? {
      var w := v.StemLong().value;
      PushThenStripTail(w, "ま", "す");
      PushStrAppend(w, "ま", "しょう");
      assert "ま" + "す" == "ます" && "ま" + "しょう" == "ましょう";
    }
  }

  predicate EndsInRu(w: Word) {
    && |w.kana| > 0 && w.kana[|w.kana| - 1] == 'る'
    && (w.kanji.Some? ==> |w.kanji.value| > 0 && w.kanji.value[|w.kanji.value| - 1] == 'る')
  }

  /** A word with a suffix ending in る pushed ends in る. */
  lemma PushedRu(w: Word, s: string)
    requires |s| > 0 && s[|s| - 1] == 'る'
    ensures EndsInRu(w.PushStr(s))
  {
  }

  /** A くる form whose suffix ends in る ends in る. */
  lemma KuruFormEndsInRu(v: Verb, inflection: Inflection)
    requires inflection == Inflection.Causative || inflection == Inflection.Passive
             || inflection == Inflection.CausativePassive
    requires v.KuruForm(inflection, Long).Some?
    ensures EndsInRu(v.KuruForm(inflection, Long).value)
  {
    var suffix := Kuru.Suffix(inflection, Long).value;
    var r := v.KuruForm(inflection, Long).value;
    assert r.kana == v.word.kana[..|v.word.kana| - 2] + suffix.0;
    if r.kanji.Some? {
      assert r.kanji.value == v.word.kanji.value[..|v.word.kanji.value| - 2] + suffix.1.value;
    }
  }

  /** Every causative ends in る. */
  lemma CausativeEndsInRu(v: Verb)
    requires v.Causative().Ok?
    ensures EndsInRu(v.Causative().value)
  {
    if v.verbType == Ichidan {
      PushedRu(v.word.StripEnd(1), "させる");
    } else if v.IsException() && v.word.EndsWith("する", Some("為る")) {
      if v.word.kana != "する" {
        PushedRu(v.word.StripEnd(2), "させる");
      }
    } else if v.IsException() && v.KuruForm(Inflection.Causative, Long).Some? {
      KuruFormEndsInRu(v, Inflection.Causative);
    } else {
      PushedRu(v.NaiStem().value, "せる");
    }
  }

  /** Every passive ends in る. */
  lemma PassiveEndsInRu(v: Verb)
    requires v.Passive().Ok?
    ensures EndsInRu(v.Passive().value)
  {
    if v.IsException() && v.IsSuru() {
      if v.word.kana != "する" {
        PushedRu(v.word.StripEnd(2), "される");
      }
    } else if v.IsException() && v.KuruForm(Inflection.Passive, Long).Some? {
      KuruFormEndsInRu(v, Inflection.Passive);
    } else {
      var stem := v.NaiStem().value;
      PushedRu(if v.verbType == Ichidan then stem.Push('ら') else stem, "れる");
    }
  }

  /** Every causative passive ends in る. */
  lemma CausativePassiveEndsInRu(v: Verb)
    requires v.CausativePassive().Ok?
    ensures EndsInRu(v.CausativePassive().value)
  {
    if v.verbType == Ichidan {
      PushedRu(v.word.StripEnd(1), "させられる");
    } else if v.IsException() && v.IsSuru() {
      if v.word.kana != "する" {
        PushedRu(v.word.StripEnd(2), "させられる");
      }
    } else if v.IsException() && v.KuruForm(Inflection.CausativePassive, Long).Some? {
      KuruFormEndsInRu(v, Inflection.CausativePassive);
    } else {
      PushedRu(v.NaiStem().value, "される");
    }
  }

  /**
   * `neg` is `base` with its final る replaced by ない in the kana reading
   * and in the kanji reading, which it has exactly when `base` has one;
   * the inflections are the same.
   */
  predicate RuReplacedByNai(base: Word, neg: Word)
    requires EndsInRu(base)
  {
    && neg.kana == base.kana[..|base.kana| - 1] + "ない"
    && (neg.kanji.Some? <==> base.kanji.Some?)
    && (neg.kanji.Some? ==> neg.kanji.value == base.kanji.value[..|base.kanji.value| - 1] + "ない")
    && neg.inflections == base.inflections
  }

  /** Dropping a final る and pushing ない puts ない in place of the る, in both readings. */
  lemma ReplaceRuByNai(w: Word)
    requires EndsInRu(w)
    ensures RuReplacedByNai(w, w.StripEnd(1).PushStr("ない"))
  {
  }

  /**
   * The negative causative, negative passive and negative causative passive
   * replace the final る of their base form by ない.
   */
  lemma NegativesReplaceFinalRu(v: Verb)
    ensures v.NegativeCausative().Ok? <==> v.Causative().Ok?
    ensures v.NegativePassive().Ok? <==> v.Passive().Ok?
    ensures v.NegativeCausativePassive().Ok? <==> v.CausativePassive().Ok?
    ensures v.Causative().Ok? ==>
              EndsInRu(v.Causative().value) && RuReplacedByNai(v.Causative().value, v.NegativeCausative().value)
    ensures v.Passive().Ok? ==>
              EndsInRu(v.Passive().value) && RuReplacedByNai(v.Passive().value, v.NegativePassive().value)
    ensures v.CausativePassive().Ok? ==>
              && EndsInRu(v.CausativePassive().value)
              && RuReplacedByNai(v.CausativePassive().value, v.NegativeCausativePassive().value)
  {
    if v.Causative().Ok? {
      CausativeEndsInRu(v);
      ReplaceRuByNai(v.Causative().value);
    }
    if v.Passive().Ok? {
      PassiveEndsInRu(v);
      ReplaceRuByNai(v.Passive().value);
    }
    if v.CausativePassive().Ok? {
      CausativePassiveEndsInRu(v);
      ReplaceRuByNai(v.CausativePassive().value);
    }
  }

  // ---------------------------------------------------------------------------
  // くる

  /**
   * Every くる compound gets the fixed volitional stem こよ/来よ: the prefix
   * is dropped.
   */
  lemma KuruVolitionalDropsPrefix(v: Verb)
    requires v.verbType == Exception && Strings.IsSuffix("くる", v.word.kana)
    ensures v.VolitionalStem() == Ok(New("こよ", Some("来よ")))
    ensures v.Volitional(Short) == Ok(New("こよう", Some("来よう")))
  {
    EndsInOneOf(v.word, "くる", "する");
    assert "こよ" + "う" == "こよう" && "来よ" + "う" == "来よう";
  }

  /**
   * The くる table's stem-ba entry is never used, so くる's ba form comes
   * from the godan table: くれば/来れば.
   */
  lemma KuruBa(v: Verb)
    requires v.word == New("くる", Some("来る")) && v.verbType == Exception
    ensures v.Ba() == Ok(New("くれば", Some("来れば")))
  {
    KuruBaStem(v);
    KuruStripPush(v, 'れ');
    var stem := New("く" + ['れ'], Some("来" + ['れ']));
    assert v.Ba() == Ok(stem.PushStr("ば"));
    assert "く" + ['れ'] + "ば" == "くれば" && "来" + ['れ'] + "ば" == "来れば";
  }

  /** くる's ba stem is the godan table's: る gives way to れ. */
  lemma KuruBaStem(v: Verb)
    requires v.word == New("くる", Some("来る")) && v.verbType == Exception
    ensures v.BaStem() == Ok(v.word.StripEnd(1).Push('れ'))
  {
    KuruBaStemFromTable(v);
    KuruMapsToRe(v);
  }

  lemma KuruBaStemFromTable(v: Verb)
    requires v.word == New("くる", Some("来る")) && v.verbType == Exception
    ensures v.BaStem() == v.MapEnding(BaTable)
  {
    StemBaUnreachable(Kuru, v.word, Long);
    assert !v.IsSuru() && !Strings.IsSuffix("する", v.word.kana);
  }

  lemma KuruMapsToRe(v: Verb)
    requires v.word == New("くる", Some("来る"))
    ensures v.MapEnding(BaTable) == Ok(v.word.StripEnd(1).Push('れ'))
  {
    assert FirstKeyAt(BaTable, 'る', 6);
    MapEndingAt(v, BaTable, 6);
  }

  lemma KuruStripPush(v: Verb, c: char)
    requires v.word == New("くる", Some("来る"))
    ensures v.word.StripEnd(1).Push(c) == New("く" + [c], Some("来" + [c]))
  {
    assert "くる"[..1] == "く" && "来る"[..1] == "来";
  }

  /** map_ending replaces the ending by the image of the first entry keyed by it. */
  lemma MapEndingAt(v: Verb, m: Mappings, i: int)
    requires |v.word.kana| > 0 && FirstKeyAt(m, v.word.kana[|v.word.kana| - 1], i)
    ensures v.MapEnding(m) == Ok(v.word.StripEnd(1).Push(m[i].1))
  {
    LookupFirst(m, v.word.kana[|v.word.kana| - 1], i);
  }

  // ---------------------------------------------------------------------------
  // Errors

  /** Three forms never fail. */
  lemma TotalForms(v: Verb)
    ensures v.Dictionary(Short) == Ok(v.word)
    ensures v.ImperativeNegative() == Ok(v.word.PushStr("な"))
    ensures v.NegativeVolitional() == Ok(v.word.PushStr("まい"))
  {
  }

  /** The kana reading is empty or does not end in a godan ending. */
  predicate UnlistedEnding(w: Word) {
    |w.kana| == 0 || w.kana[|w.kana| - 1] !in GodanEndings
  }

  /** A word without a godan ending has none of the endings the overrides look for. */
  lemma UnlistedEndingFacts(v: Verb)
    requires UnlistedEnding(v.word)
    ensures !Strings.IsSuffix("する", v.word.kana) && !Strings.IsSuffix("くる", v.word.kana)
    ensures !Strings.IsSuffix("ある", v.word.kana) && !Strings.IsSuffix("いく", v.word.kana)
    ensures !v.IsSuru() && !v.IsPolite()
    ensures v.word.kana != "ある" && v.word.kana != "いらっしゃる"
  {
    var k := v.word.kana;
    assert !Strings.IsSuffix("する", k) && !Strings.IsSuffix("くる", k) && !Strings.IsSuffix("ある", k)
           && !Strings.IsSuffix("いく", k);
  }

  /**
   * A non-ichidan verb without a godan ending fails with UnexpectedEnding in
   * every stem.
   */
  lemma BadEndingStemsFail(v: Verb)
    requires v.verbType != Ichidan && UnlistedEnding(v.word)
    ensures v.GetStem(Short) == Err(UnexpectedEnding)
    ensures v.GetStem(Long) == Err(UnexpectedEnding)
    ensures v.StemPotential() == Err(UnexpectedEnding)
    ensures v.BaStem() == Err(UnexpectedEnding)
    ensures v.VolitionalStem() == Err(UnexpectedEnding)
  {
    TablesListGodanEndings();
    UnlistedEndingFacts(v);
  }

  /**
   * The forms built on a stem fail with it; the causative only when the
   * kanji reading does not end in 為る, which the causative's する test
   * also accepts.
   */
  lemma BadEndingFails(v: Verb)
    requires v.verbType != Ichidan && UnlistedEnding(v.word)
    ensures v.Negative(Short) == Err(UnexpectedEnding)
    ensures v.Negative(Long) == Err(UnexpectedEnding)
    ensures v.Dictionary(Long) == Err(UnexpectedEnding)
    ensures v.Potential(Short) == Err(UnexpectedEnding)
    ensures v.Imperative() == Err(UnexpectedEnding)
    ensures !v.word.EndsWith("する", Some("為る")) ==> v.Causative() == Err(UnexpectedEnding)
    ensures v.Passive() == Err(UnexpectedEnding)
    ensures v.Ba() == Err(UnexpectedEnding)
    ensures v.Volitional(Short) == Err(UnexpectedEnding)
    ensures v.Desiderative() == Err(UnexpectedEnding)
  {
    BadEndingStemsFail(v);
    UnlistedEndingFacts(v);
  }

  /** The te and ta forms and the tara form fail too, unless the kanji reading ends in 行く. */
  lemma BadEndingTeFails(v: Verb)
    requires v.verbType != Ichidan && UnlistedEnding(v.word) && !v.word.EndsWith("いく", Some("行く"))
    ensures v.TeForm() == Err(UnexpectedEnding)
    ensures v.Past(Short) == Err(UnexpectedEnding)
    ensures v.Tara() == Err(UnexpectedEnding)
  {
    TablesListGodanEndings();
    UnlistedEndingFacts(v);
  }

  /** The forms on the long and the potential stem fail with those stems. */
  lemma BadEndingLongFormsFail(v: Verb)
    requires v.verbType != Ichidan && UnlistedEnding(v.word)
    ensures v.Past(Long) == Err(UnexpectedEnding)
    ensures v.NegativePast(Long) == Err(UnexpectedEnding)
    ensures v.Potential(Long) == Err(UnexpectedEnding)
    ensures v.NegativePotential(Short) == Err(UnexpectedEnding)
    ensures v.NegativePotential(Long) == Err(UnexpectedEnding)
    ensures v.Volitional(Long) == Err(UnexpectedEnding)
    ensures v.NegativeDesiderative() == Err(UnexpectedEnding)
  {
    BadEndingStemsFail(v);
  }

  /**
   * The forms on the nai stem, and the forms derived from a failing form,
   * fail with it; the negative causative only when the causative does.
   */
  lemma BadEndingNegativeFormsFail(v: Verb)
    requires v.verbType != Ichidan && UnlistedEnding(v.word)
    ensures v.NegativePast(Short) == Err(UnexpectedEnding)
    ensures v.NegativeTeForm() == Err(UnexpectedEnding)
    ensures v.NegativeTara() == Err(UnexpectedEnding)
    ensures v.NegativeBa() == Err(UnexpectedEnding)
    ensures v.Zu() == Err(UnexpectedEnding)
    ensures v.CausativePassive() == Err(UnexpectedEnding)
    ensures v.NegativeCausativePassive() == Err(UnexpectedEnding)
    ensures v.NegativePassive() == Err(UnexpectedEnding)
    ensures !v.word.EndsWith("する", Some("為る")) ==> v.NegativeCausative() == Err(UnexpectedEnding)
  {
    BadEndingStemsFail(v);
    BadEndingFails(v);
    UnlistedEndingFacts(v);
  }

  /**
   * A word ending in ず, づ, ふ, ぷ or ゆ passes the verb check, since those
   * are u-vowel syllables, yet as a godan verb it has no stem at all.
   */
  lemma AcceptedButUnconjugable(w: Word)
    requires |w.kana| > 0 && w.kana[|w.kana| - 1] in "ずづふぷゆ"
    ensures IntoVerb(w, Godan) == Ok(Verb(w, Godan))
    ensures Verb(w, Godan).GetStem(Short) == Err(UnexpectedEnding)
    ensures Verb(w, Godan).GetStem(Long) == Err(UnexpectedEnding)
  {
    AcceptedAsVerb(w);
    assert w.kana[|w.kana| - 1] !in GodanEndings;
    BadEndingStemsFail(Verb(w, Godan));
  }

  lemma AcceptedAsVerb(w: Word)
    requires |w.kana| > 0 && w.kana[|w.kana| - 1] in "ずづふぷゆ"
    ensures w.IsVerb()
  {
    OtherUSyllables();
  }
}
