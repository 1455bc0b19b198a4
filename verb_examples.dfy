/**
 * Worked examples: the conjugations the crate's documentation and tests
 * expect for たべる, まもる, かく, およぐ, はなす, ならう and くる, derived
 * from the general rules one step at a time.
 */
module VerbExamples {
  import opened Wrappers
  import opened Tables
  import opened Syllables
  import opened Classification
  import opened Words
  import opened SpecialVerbs
  import opened KuruVerb
  import opened Verbs
  import opened VerbProperties
  import Strings

  /** A two-character verb with a one-character kanji stem loses its ending to StripEnd(1). */
  lemma StripTwoOne(w: Word, a: char, b: char, k: char)
    requires w.kana == [a, b] && w.kanji == Some([k, b])
    ensures w.StripEnd(1) == Word([a], Some([k]), w.inflections)
  {
    assert w.kana[..1] == [a] && w.kanji.value[..1] == [k];
  }

  /** A three-character verb with a two-character kanji stem. */
  lemma StripThreeTwo(w: Word, a: char, b: char, c: char, k: char)
    requires w.kana == [a, b, c] && w.kanji == Some([k, b, c])
    ensures w.StripEnd(1) == Word([a, b], Some([k, b]), w.inflections)
  {
    assert w.kana[..2] == [a, b] && w.kanji.value[..2] == [k, b];
  }

  /** A three-character verb with a one-character kanji stem. */
  lemma StripThreeOne(w: Word, a: char, b: char, c: char, k: char)
    requires w.kana == [a, b, c] && w.kanji == Some([k, c])
    ensures w.StripEnd(1) == Word([a, b], Some([k]), w.inflections)
  {
    assert w.kana[..2] == [a, b] && w.kanji.value[..1] == [k];
  }

  /**
   * A three-character verb with a one-character kanji stem whose ending is
   * replaced by the stem character `x` and followed by the suffix `s`.
   */
  lemma ThreeOneSpelled(w: Word, a: char, b: char, c: char, k: char, x: char, s: string, r: Result<Word>)
    requires w == New([a, b, c], Some([k, c]))
    requires r == Ok(w.StripEnd(1).Push(x).PushStr(s))
    ensures r == Ok(New([a, b, x] + s, Some([k, x] + s)))
  {
    StripThreeOne(w, a, b, c, k);
    assert [a, b] + [x] + s == [a, b, x] + s && [k] + [x] + s == [k, x] + s;
  }

  /** ならう/習う is a verb: う is classified with the u-vowel. */
  lemma NarauIsAVerb(w: Word)
    requires w == New("ならう", Some("習う"))
    ensures IntoVerb(w, Godan) == Ok(Verb(w, Godan))
  {
    GodanEndingsAreU();
    assert w.kana[|w.kana| - 1] == 'う';
  }

  /** ならう's plain negative past is ならわなかった/習わなかった. */
  lemma NarauNegativePast(v: Verb)
    requires v.word == New("ならう", Some("習う")) && v.verbType == Godan
    ensures v.NegativePast(Short) == Ok(New("ならわなかった", Some("習わなかった")))
  {
    assert ['な', 'ら', 'わ'] + "なかった" == "ならわなかった" && ['習', 'わ'] + "なかった" == "習わなかった";
    NarauNegativePastRule(v);
    ThreeOneSpelled(v.word, 'な', 'ら', 'う', '習', 'わ', "なかった", v.NegativePast(Short));
  }

  lemma NarauNegativePastRule(v: Verb)
    requires v.word == New("ならう", Some("習う")) && v.verbType == Godan
    ensures v.NegativePast(Short) == Ok(v.word.StripEnd(1).Push('わ').PushStr("なかった"))
  {
    assert v.word.kana != "ある";
    GodanNegativesFromTables(v);
    EndingUNaiStem(v);
  }

  /** A verb ending in う takes わ, not あ, in its nai stem. */
  lemma EndingUNaiStem(v: Verb)
    requires |v.word.kana| > 0 && v.word.kana[|v.word.kana| - 1] == 'う'
    ensures v.MapEnding(NaiTable) == Ok(v.word.StripEnd(1).Push('わ'))
  {
    assert FirstKeyAt(NaiTable, 'う', 7);
    MapEndingAt(v, NaiTable, 7);
  }

  /** たべる's te form is たべて/食べて. */
  lemma TaberuTe(v: Verb)
    requires v.word == New("たべる", Some("食べる")) && v.verbType == Ichidan
    ensures v.TeForm() == Ok(New("たべて", Some("食べて")))
  {
    TaberuTeRule(v);
    TaberuTeSpelled(v.word, v.TeForm());
  }

  lemma TaberuTeRule(v: Verb)
    requires v.word == New("たべる", Some("食べる")) && v.verbType == Ichidan
    ensures v.TeForm() == Ok(v.word.StripEnd(1).Push('て'))
  {
    assert !Strings.IsSuffix("いく", v.word.kana) && !Strings.IsSuffix("ある", v.word.kana);
    assert !Strings.IsSuffix("行く", v.word.kanji.value);
  }

  lemma TaberuTeSpelled(w: Word, r: Result<Word>)
    requires w == New("たべる", Some("食べる"))
    requires r == Ok(w.StripEnd(1).Push('て'))
    ensures r == Ok(New("たべて", Some("食べて")))
  {
    StripThreeTwo(w, 'た', 'べ', 'る', '食');
    assert "たべ" + ['て'] == "たべて" && "食べ" + ['て'] == "食べて";
  }

  /** たべる's plain negative is たべない/食べない. */
  lemma TaberuNegative(v: Verb)
    requires v.word == New("たべる", Some("食べる")) && v.verbType == Ichidan
    ensures v.Negative(Short) == Ok(New("たべない", Some("食べない")))
  {
    TaberuNegativeRule(v);
    TaberuNegativeSpelled(v.word, v.Negative(Short));
  }

  lemma TaberuNegativeRule(v: Verb)
    requires v.word == New("たべる", Some("食べる")) && v.verbType == Ichidan
    ensures v.Negative(Short) == Ok(v.word.StripEnd(1).PushStr("ない"))
  {
    assert v.word.kana != "ある";
  }

  lemma TaberuNegativeSpelled(w: Word, r: Result<Word>)
    requires w == New("たべる", Some("食べる"))
    requires r == Ok(w.StripEnd(1).PushStr("ない"))
    ensures r == Ok(New("たべない", Some("食べない")))
  {
    StripThreeTwo(w, 'た', 'べ', 'る', '食');
    assert "たべ" + "ない" == "たべない" && "食べ" + "ない" == "食べない";
  }

  /** まもる/守る: te form まもって/守って. */
  lemma MamoruTe(v: Verb)
    requires v.word == New("まもる", Some("守る")) && v.verbType == Godan
    ensures v.TeForm() == Ok(New("まもって", Some("守って")))
  {
    assert ['ま', 'も', 'っ'] + "て" == "まもって" && ['守', 'っ'] + "て" == "守って";
    MamoruTeRule(v);
    ThreeOneSpelled(v.word, 'ま', 'も', 'る', '守', 'っ', "て", v.TeForm());
  }

  lemma MamoruTeRule(v: Verb)
    requires v.word == New("まもる", Some("守る")) && v.verbType == Godan
    ensures v.TeForm() == Ok(v.word.StripEnd(1).Push('っ').PushStr("て"))
  {
    assert !Strings.IsSuffix("いく", v.word.kana) && !Strings.IsSuffix("ある", v.word.kana);
    assert !Strings.IsSuffix("行く", v.word.kanji.value);
    assert FirstKeyAt(TeTable, 'る', 6);
    GodanTeRule(v, 'て', 6);
  }

  /** まもる/守る: plain negative まもらない/守らない. */
  lemma MamoruNegative(v: Verb)
    requires v.word == New("まもる", Some("守る")) && v.verbType == Godan
    ensures v.Negative(Short) == Ok(New("まもらない", Some("守らない")))
  {
    assert ['ま', 'も', 'ら'] + "ない" == "まもらない" && ['守', 'ら'] + "ない" == "守らない";
    MamoruNegativeRule(v);
    ThreeOneSpelled(v.word, 'ま', 'も', 'る', '守', 'ら', "ない", v.Negative(Short));
  }

  lemma MamoruNegativeRule(v: Verb)
    requires v.word == New("まもる", Some("守る")) && v.verbType == Godan
    ensures v.Negative(Short) == Ok(v.word.StripEnd(1).Push('ら').PushStr("ない"))
  {
    assert v.word.kana != "ある";
    GodanNegativesFromTables(v);
    EndingRuStems(v);
  }

  /** まもる/守る: polite negative まもりません/守りません. */
  lemma MamoruPoliteNegative(v: Verb)
    requires v.word == New("まもる", Some("守る")) && v.verbType == Godan
    ensures v.Negative(Long) == Ok(New("まもりません", Some("守りません")))
  {
    assert ['ま', 'も', 'り'] + "ません" == "まもりません" && ['守', 'り'] + "ません" == "守りません";
    MamoruPoliteNegativeRule(v);
    ThreeOneSpelled(v.word, 'ま', 'も', 'る', '守', 'り', "ません", v.Negative(Long));
  }

  lemma MamoruPoliteNegativeRule(v: Verb)
    requires v.word == New("まもる", Some("守る")) && v.verbType == Godan
    ensures v.Negative(Long) == Ok(v.word.StripEnd(1).Push('り').PushStr("ません"))
  {
    assert !v.IsPolite() && v.word.kana != "ある";
    GodanNegativesFromTables(v);
    EndingRuStems(v);
  }

  /** A verb ending in る takes ら in its nai stem and り in its long stem. */
  lemma EndingRuStems(v: Verb)
    requires |v.word.kana| > 0 && v.word.kana[|v.word.kana| - 1] == 'る'
    ensures v.MapEnding(NaiTable) == Ok(v.word.StripEnd(1).Push('ら'))
    ensures v.MapEnding(LongTable) == Ok(v.word.StripEnd(1).Push('り'))
  {
    assert FirstKeyAt(NaiTable, 'る', 6) && FirstKeyAt(LongTable, 'る', 6);
    MapEndingAt(v, NaiTable, 6);
    MapEndingAt(v, LongTable, 6);
  }

  /** かく/書く: the く ending becomes い, かいて/書いて. */
  lemma KakuTe(v: Verb)
    requires v.word == New("かく", Some("書く")) && v.verbType == Godan
    ensures v.TeForm() == Ok(New("かいて", Some("書いて")))
  {
    KakuTeRule(v);
    KakuTeSpelled(v.word, v.TeForm());
  }

  lemma KakuTeRule(v: Verb)
    requires v.word == New("かく", Some("書く")) && v.verbType == Godan
    ensures v.TeForm() == Ok(v.word.StripEnd(1).Push('い').Push('て'))
  {
    assert !Strings.IsSuffix("いく", v.word.kana) && !Strings.IsSuffix("ある", v.word.kana);
    assert !Strings.IsSuffix("行く", v.word.kanji.value);
    assert FirstKeyAt(TeTable, 'く', 1);
    GodanTeRule(v, 'て', 1);
  }

  lemma KakuTeSpelled(w: Word, r: Result<Word>)
    requires w == New("かく", Some("書く"))
    requires r == Ok(w.StripEnd(1).Push('い').Push('て'))
    ensures r == Ok(New("かいて", Some("書いて")))
  {
    StripTwoOne(w, 'か', 'く', '書');
    assert "か" + ['い'] + ['て'] == "かいて" && "書" + ['い'] + ['て'] == "書いて";
  }

  /** およぐ/泳ぐ: after ぐ the mora is voiced, およいで/泳いで. */
  lemma OyoguTe(v: Verb)
    requires v.word == New("およぐ", Some("泳ぐ")) && v.verbType == Godan
    ensures v.TeForm() == Ok(New("およいで", Some("泳いで")))
  {
    assert ['お', 'よ', 'い'] + "で" == "およいで" && ['泳', 'い'] + "で" == "泳いで";
    OyoguTeRule(v);
    ThreeOneSpelled(v.word, 'お', 'よ', 'ぐ', '泳', 'い', "で", v.TeForm());
  }

  lemma OyoguTeRule(v: Verb)
    requires v.word == New("およぐ", Some("泳ぐ")) && v.verbType == Godan
    ensures v.TeForm() == Ok(v.word.StripEnd(1).Push('い').PushStr("で"))
  {
    assert !Strings.IsSuffix("いく", v.word.kana) && !Strings.IsSuffix("ある", v.word.kana);
    assert !Strings.IsSuffix("行く", v.word.kanji.value);
    assert FirstKeyAt(TeTable, 'ぐ', 2);
    GodanTeRule(v, 'て', 2);
  }

  /** はなす/話す: the す ending becomes し, はなして/話して. */
  lemma HanasuTe(v: Verb)
    requires v.word == New("はなす", Some("話す")) && v.verbType == Godan
    ensures v.TeForm() == Ok(New("はなして", Some("話して")))
  {
    assert ['は', 'な', 'し'] + "て" == "はなして" && ['話', 'し'] + "て" == "話して";
    HanasuTeRule(v);
    ThreeOneSpelled(v.word, 'は', 'な', 'す', '話', 'し', "て", v.TeForm());
  }

  lemma HanasuTeRule(v: Verb)
    requires v.word == New("はなす", Some("話す")) && v.verbType == Godan
    ensures v.TeForm() == Ok(v.word.StripEnd(1).Push('し').PushStr("て"))
  {
    assert !Strings.IsSuffix("いく", v.word.kana) && !Strings.IsSuffix("ある", v.word.kana);
    assert !Strings.IsSuffix("行く", v.word.kanji.value);
    assert FirstKeyAt(TeTable, 'す', 0);
    GodanTeRule(v, 'て', 0);
  }

  /** いく/行く: the いく override gives いって/行って, whatever the class. */
  lemma IkuTe(v: Verb)
    requires v.word == New("いく", Some("行く"))
    ensures v.TeForm() == Ok(New("いって", Some("行って")))
  {
    assert Strings.IsSuffix("いく", v.word.kana);
    assert "いっ" + ['て'] == "いって" && "行っ" + ['て'] == "行って";
  }

  /** くる/来る: plain negative こない/来ない from the くる table. */
  lemma KuruNegative(v: Verb)
    requires v.word == New("くる", Some("来る")) && v.verbType == Exception
    ensures v.Negative(Short) == Ok(New("こない", Some("来ない")))
  {
    FormatKeepsPrefix("", "", Stem, Short);
    assert "" + "くる" == "くる" && "" + "来る" == "来る";
    assert "" + "こ" == "こ" && "" + "来" == "来";
    assert "こ" + "ない" == "こない" && "来" + "ない" == "来ない";
  }

  /** くる/来る: the te form きて/来て, the table's きて with its last mora replaced by て. */
  lemma KuruTe(v: Verb)
    requires v.word == New("くる", Some("来る")) && v.verbType == Exception
    ensures v.TeForm() == Ok(New("きて", Some("来て")))
  {
    KuruTeFromTable(v);
    KiteKeepsTe();
  }

  /** Bare くる takes the くる branch of the te rule with the table's きて/来て. */
  lemma KuruTeFromTable(v: Verb)
    requires v.word == New("くる", Some("来る")) && v.verbType == Exception
    ensures v.TeForm() == Ok(ReplaceLastMora(New("きて", Some("来て")), 'て'))
  {
    FormatKeepsPrefix("", "", Te, Long);
    assert "" + "くる" == "くる" && "" + "来る" == "来る";
    assert "" + "きて" == "きて" && "" + "来て" == "来て";
    assert v.KuruForm(Inflection.Te, Long) == Some(New("きて", Some("来て")));
    assert !Strings.IsSuffix("いく", v.word.kana) && !Strings.IsSuffix("行く", v.word.kanji.value);
    assert !v.word.EndsWith("いく", Some("行く"));
    assert !v.IsSuru();
    assert v.TeForm() == v.TeRule('て');
  }

  /** Replacing the last mora of きて/来て by て leaves it unchanged. */
  lemma KiteKeepsTe()
    ensures ReplaceLastMora(New("きて", Some("来て")), 'て') == New("きて", Some("来て"))
  {
    assert Strings.Pop("きて") + ['て'] == "きて" && Strings.Pop("来て") + ['て'] == "来て";
  }
}
