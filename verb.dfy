/**
 * The conjugation engine (src/verb.rs): a dictionary-form word with its verb
 * class, and every form built from it as a stem plus a literal suffix, with
 * the irregular verbs する and くる, the verb ある, いく and the polite verbs
 * handled by overrides checked in a fixed order.
 */
module Verbs {
  import opened Wrappers
  import opened Tables
  import opened Syllables
  import opened Words
  import opened SpecialVerbs
  import opened KuruVerb
  import Strings

  /** The conjugation class of a verb. */
  datatype VerbType = Godan | Ichidan | Exception

  /** A table from a godan ending to the kana that replaces it in one stem. */
  type Mappings = seq<(char, char)>

  /** The nine endings of a godan verb, in the order every stem table lists them. */
  const GodanEndings: string := "すくぐむぶぬるうつ"

  /** The a-stem of the plain negative. */
  const NaiTable: Mappings :=
    [('す', 'さ'), ('く', 'か'), ('ぐ', 'が'), ('む', 'ま'), ('ぶ', 'ば'), ('ぬ', 'な'), ('る', 'ら'), ('う', 'わ'), ('つ', 'た')]

  /** The i-stem of the polite forms. */
  const LongTable: Mappings :=
    [('す', 'し'), ('く', 'き'), ('ぐ', 'ぎ'), ('む', 'み'), ('ぶ', 'び'), ('ぬ', 'に'), ('る', 'り'), ('う', 'い'), ('つ', 'ち')]

  /** The e-stem of the potential and the imperative. */
  const PotentialTable: Mappings :=
    [('す', 'せ'), ('く', 'け'), ('ぐ', 'げ'), ('む', 'め'), ('ぶ', 'べ'), ('ぬ', 'ね'), ('る', 'れ'), ('う', 'え'), ('つ', 'て')]

  /** The e-stem of the ba conditional, the same mapping as the potential one. */
  const BaTable: Mappings :=
    [('す', 'せ'), ('く', 'け'), ('ぐ', 'げ'), ('む', 'め'), ('ぶ', 'べ'), ('ぬ', 'ね'), ('る', 'れ'), ('う', 'え'), ('つ', 'て')]

  /** The o-stem of the volitional. */
  const VolitionalTable: Mappings :=
    [('す', 'そ'), ('く', 'こ'), ('ぐ', 'ご'), ('む', 'も'), ('ぶ', 'ぼ'), ('ぬ', 'の'), ('る', 'ろ'), ('う', 'お'), ('つ', 'と')]

  /** The sound change in front of the te and ta endings. */
  const TeTable: Mappings :=
    [('す', 'し'), ('く', 'い'), ('ぐ', 'い'), ('む', 'ん'), ('ぶ', 'ん'), ('ぬ', 'ん'), ('る', 'っ'), ('う', 'っ'), ('つ', 'っ')]

  /** The keys of a table, in order. */
  function Keys(m: Mappings): string {
    seq(|m|, i requires 0 <= i < |m| => m[i].0)
  }

  /** A key is listed exactly when the first-match lookup finds it. */
  lemma KeysLookup(m: Mappings, k: char)
    ensures k in Keys(m) <==> Lookup(m, k).Some?
  {
    if k in Keys(m) {
      var i :| 0 <= i < |m| && Keys(m)[i] == k;
      assert m[i].0 == k;
    } else {
      forall i | 0 <= i < |m| ensures m[i].0 != k {
        assert Keys(m)[i] == m[i].0;
      }
    }
  }

  /** The godan endings after which the te and ta endings are voiced. */
  predicate IsVoicingEnding(c: char) {
    c == 'ぐ' || c == 'む' || c == 'ぶ' || c == 'ぬ'
  }

  /** The last mora of both readings replaced by `m`, as the くる branch of the te rule does it. */
  function ReplaceLastMora(w: Word, m: char): (r: Word)
    ensures |w.kana| > 0 ==> |r.kana| == |w.kana| && r.kana[..|w.kana| - 1] == w.kana[..|w.kana| - 1]
    ensures |r.kana| > 0 && r.kana[|r.kana| - 1] == m
    ensures r.kanji.Some? <==> w.kanji.Some?
    ensures r.kanji.Some? ==> |r.kanji.value| > 0 && r.kanji.value[|r.kanji.value| - 1] == m
    ensures w.kanji.Some? && |w.kanji.value| > 0 ==>
              && |r.kanji.value| == |w.kanji.value|
              && r.kanji.value[..|w.kanji.value| - 1] == w.kanji.value[..|w.kanji.value| - 1]
    ensures |w.kana| == 0 ==> r.kana == [m]
    ensures w.kanji.Some? && |w.kanji.value| == 0 ==> r.kanji.value == [m]
    ensures r.inflections == w.inflections
  {
    var kanji :=
      match w.kanji
      case Some(k) => Some(Strings.Pop(k) + [m])
      case None => None;
    Word(Strings.Pop(w.kana) + [m], kanji, w.inflections)
  }

  /** `Word::into_verb`: the word with its class, or NotAVerb when it is not a verb. */
  function IntoVerb(w: Word, verbType: VerbType): (r: Result<Verb>)
    ensures r.Ok? <==> w.IsVerb()
    ensures r.Ok? ==> r.value.word == w && r.value.verbType == verbType
    ensures r.Err? ==> r.error == NotAVerb
  {
    var _ :- w.RequireVerb();
    Ok(Verb(w, verbType))
  }

  /** A dictionary-form word and its conjugation class. */
  datatype Verb = Verb(word: Word, verbType: VerbType) {

    /** The kanji reading when the verb has one, otherwise the kana reading. */
    function GetReading(): (r: string)
      ensures word.kanji.Some? ==> r == word.kanji.value
      ensures word.kanji.None? ==> r == word.kana
    {
      word.GetReading()
    }

    /** A verb is in dictionary form while no inflection has been applied. */
    predicate IsDictForm() {
      word.inflections == []
    }

    predicate IsException() {
      verbType == Exception
    }

    /**
     * The five honorific verbs whose i-stem is い instead of り; all of them
     * end in る, so the stem tables would otherwise give り.
     */
    predicate IsPolite()
      ensures IsPolite() ==> |word.kana| > 0 && word.kana[|word.kana| - 1] == 'る'
    {
      word.kana in {"いらっしゃる", "おっしゃる", "くださる", "ござる", "なさる"}
    }

    /** The kana reading ends in する. */
    predicate IsSuru() {
      word.EndsWith("する", None)
    }

    /** The くる table applied to this word. */
    function KuruForm(inflection: Inflection, wf: WordForm): Option<Word> {
      Kuru.FormatVerb(word, inflection, wf)
    }

    /**
     * A する verb's form: the fixed word for bare する, otherwise the word
     * with する replaced by `suffix`.
     */
    function SuruForm(suffix: string, bareKana: string, bareKanji: string): Word {
      if word.kana == "する" then Word(bareKana, Some(bareKanji), [])
      else word.StripEnd(2).PushStr(suffix)
    }

    /**
     * `map_ending`: the last character of both readings replaced by the
     * table's image of the last kana character, taken from the first entry
     * whose key it is. Fails with UnexpectedEnding for an empty kana reading
     * and for an ending the table does not list.
     */
    function MapEnding(mappings: Mappings): (r: Result<Word>)
      ensures r.Err? ==> r.error == UnexpectedEnding
      ensures r.Ok? <==> |word.kana| > 0 && word.kana[|word.kana| - 1] in Keys(mappings)
      ensures r.Ok? ==>
                var n := |word.kana|;
                && |r.value.kana| == n
                && r.value.kana[..n - 1] == word.kana[..n - 1]
                && (word.kana[n - 1], r.value.kana[n - 1]) in mappings
                && Lookup(mappings, word.kana[n - 1]) == Some(r.value.kana[n - 1])
      ensures r.Ok? ==> (r.value.kanji.Some? <==> word.kanji.Some?)
      ensures r.Ok? && r.value.kanji.Some? ==>
                r.value.kanji.value == Strings.DropLast(word.kanji.value, 1) + [r.value.kana[|word.kana| - 1]]
      ensures r.Ok? ==> r.value.inflections == word.inflections
    {
      if |word.kana| == 0 then Err(UnexpectedEnding)
      else
        var ending := word.kana[|word.kana| - 1];
        KeysLookup(mappings, ending);
        match Lookup(mappings, ending)
        case None => Err(UnexpectedEnding)
        case Some(dst) => Ok(word.StripEnd(1).Push(dst))
    }

    /** The stem tables' common entry point, with a する branch the callers never reach. */
    function MappedStem(mappings: Mappings): Result<Word> {
      if Strings.IsSuffix("する", word.kana) && IsException() then Ok(word.StripEnd(2).Push('し'))
      else MapEnding(mappings)
    }

    /** The stem of the plain negative (ない stem). */
    function NaiStem(): Result<Word> {
      if verbType == Ichidan then Ok(word.StripEnd(1))
      else if IsException() && KuruForm(Inflection.Stem, Short).Some? then Ok(KuruForm(Inflection.Stem, Short).value)
      else if IsException() && IsSuru() then Ok(SuruForm("し", "し", "為"))
      else MappedStem(NaiTable)
    }

    /** The stem of the polite forms (ます stem). */
    function StemLong(): Result<Word> {
      if verbType == Ichidan then Ok(word.StripEnd(1))
      else if IsException() && KuruForm(Inflection.Stem, Long).Some? then Ok(KuruForm(Inflection.Stem, Long).value)
      else if IsException() && IsSuru() then Ok(SuruForm("し", "し", "為"))
      else if IsPolite() then Ok(word.StripEnd(1).PushStr("い"))
      else MappedStem(LongTable)
    }

    /** The stem of the potential forms. */
    function StemPotential(): Result<Word> {
      if verbType == Ichidan then Ok(word.StripEnd(1).PushStr("られ"))
      else if IsException() && IsSuru() then Ok(SuruForm("でき", "でき", "出来"))
      else if IsException() && KuruForm(Inflection.StemPotential, Long).Some? then Ok(KuruForm(Inflection.StemPotential, Long).value)
      else MappedStem(PotentialTable)
    }

    /** The stem of the ba conditional. */
    function BaStem(): Result<Word> {
      if verbType == Ichidan then Ok(word.StripEnd(1).PushStr("れ"))
      else if IsException() && IsSuru() then Ok(SuruForm("すれ", "すれ", "為れ"))
      else if IsException() && KuruForm(Inflection.StemBa, Long).Some? then Ok(KuruForm(Inflection.StemBa, Long).value)
      else MappedStem(BaTable)
    }

    /** The stem of the volitional; every くる compound gets the fixed こよ/来よ. */
    function VolitionalStem(): Result<Word> {
      if IsException() && IsSuru() then Ok(SuruForm("しよ", "しよ", "為よ"))
      else if IsException() && word.EndsWith("くる", None) then Ok(Word("こよ", Some("来よ"), []))
      else if verbType == Ichidan then Ok(word.StripEnd(1).PushStr("よ"))
      else MappedStem(VolitionalTable)
    }

    /** The te rule for ichidan verbs: る gives way to the mora. */
    function TeRuleIchidan(m: char): Word {
      word.StripEnd(1).Push(m)
    }

    /**
     * The te rule for godan verbs: the ending undergoes its sound change and
     * the mora follows, voiced exactly when the ending is ぐ, む, ぶ or ぬ.
     */
    function TeRuleGodan(m: char): (r: Result<Word>)
      requires IsTeMora(m)
      ensures r.Ok? <==> MapEnding(TeTable).Ok?
      ensures r.Err? ==> r.error == UnexpectedEnding
      ensures r.Ok? ==>
                && |r.value.kana| == |word.kana| + 1
                && r.value.kana[..|word.kana|] == MapEnding(TeTable).value.kana
                && (r.value.kana[|word.kana|] == m || r.value.kana[|word.kana|] == Voiced(m))
                && (r.value.kana[|word.kana|] != m <==> IsVoicingEnding(word.kana[|word.kana| - 1]))
      ensures r.Ok? ==>
                && r.value.kanji == MapAppend(MapEnding(TeTable).value.kanji, [r.value.kana[|word.kana|]])
                && r.value.inflections == word.inflections
    {
      var stem :- MapEnding(TeTable);
      var ending := word.kana[|word.kana| - 1];
      var mora := if IsVoicingEnding(ending) then Voiced(m) else m;
      Ok(stem.Push(mora))
    }

    /**
     * `te_rule`: the te or ta form ending in the mora `m`. The overrides come
     * first, in order: いく/行く, then する and くる for exception verbs, then
     * ある; then the ichidan and the godan rule.
     */
    function TeRule(m: char): (r: Result<Word>)
      requires IsTeMora(m)
      ensures r.Err? ==> r.error == UnexpectedEnding
      ensures r.Ok? ==>
                && |r.value.kana| > 0
                && (r.value.kana[|r.value.kana| - 1] == m || r.value.kana[|r.value.kana| - 1] == Voiced(m))
    {
      if word.EndsWith("いく", Some("行く")) then Ok(New("いっ" + [m], Some("行っ" + [m])))
      else if IsException() && IsSuru() then Ok(SuruForm("し" + [m], "し" + [m], "為" + [m]))
      else if IsException() && KuruForm(Inflection.Te, Long).Some? then Ok(ReplaceLastMora(KuruForm(Inflection.Te, Long).value, m))
      else if word.EndsWith("ある", None) then Ok(New("あっ" + [m], None))
      else if verbType == Ichidan then Ok(TeRuleIchidan(m))
      else TeRuleGodan(m)
    }

    function PastShort(): Result<Word> {
      TeRule('た')
    }

    function PastLong(): Result<Word> {
      var stem :- StemLong();
      Ok(stem.PushStr("ました"))
    }

    function NegativeShort(): Result<Word> {
      if word.kana == "ある" then Ok(New("ない", None))
      else
        var stem :- NaiStem();
        Ok(stem.PushStr("ない"))
    }

    function NegativeLong(): Result<Word> {
      var stem :- StemLong();
      Ok(stem.PushStr("ません"))
    }

    function NegativePastShort(): Result<Word> {
      if word.HasReading("ある", None) then Ok(New("なかった", None))
      else
        var stem :- NaiStem();
        Ok(stem.PushStr("なかった"))
    }

    function NegativePastLong(): Result<Word> {
      var stem :- StemLong();
      Ok(stem.PushStr("ませんでした"))
    }

    function NegativePotentialShort(): Result<Word> {
      var stem :- StemPotential();
      Ok(stem.PushStr("ない"))
    }

    function NegativePotentialLong(): Result<Word> {
      var stem :- StemPotential();
      Ok(stem.PushStr("ません"))
    }

    function PotentialShort(): Result<Word> {
      var stem :- StemPotential();
      Ok(stem.Push('る'))
    }

    function PotentialLong(): Result<Word> {
      var stem :- StemPotential();
      Ok(stem.PushStr("ます"))
    }

    function DictionaryPolite(): Result<Word> {
      var stem :- StemLong();
      Ok(stem.PushStr("ます"))
    }

    function VolitionalShort(): Result<Word> {
      var stem :- VolitionalStem();
      Ok(stem.PushStr("う"))
    }

    function VolitionalLong(): Result<Word> {
      var polite :- Dictionary(Long);
      Ok(polite.StripEnd(1).PushStr("しょう"))
    }

    // The public forms.

    function GetStem(form: WordForm): Result<Word> {
      match form
      case Short => NaiStem()
      case Long => StemLong()
    }

    function Dictionary(form: WordForm): Result<Word> {
      match form
      case Short => Ok(word)
      case Long => DictionaryPolite()
    }

    function Negative(form: WordForm): Result<Word> {
      match form
      case Short => NegativeShort()
      case Long => NegativeLong()
    }

    /** The te form; いらっしゃる has the fixed いらして. */
    function TeForm(): Result<Word> {
      if word.kana == "いらっしゃる" then Ok(New("いらして", None))
      else TeRule('て')
    }

    function NegativeTeForm(): Result<Word> {
      var negative :- NegativeShort();
      Ok(negative.StripEnd(1).PushStr("くて"))
    }

    function Past(form: WordForm): Result<Word> {
      match form
      case Short => PastShort()
      case Long => PastLong()
    }

    function NegativePast(form: WordForm): Result<Word> {
      match form
      case Short => NegativePastShort()
      case Long => NegativePastLong()
    }

    function Potential(form: WordForm): Result<Word> {
      match form
      case Short => PotentialShort()
      case Long => PotentialLong()
    }

    function NegativePotential(form: WordForm): Result<Word> {
      match form
      case Short => NegativePotentialShort()
      case Long => NegativePotentialLong()
    }

    function Imperative(): Result<Word> {
      if verbType == Ichidan then Ok(word.StripEnd(1).PushStr("ろ"))
      else if IsException() && IsSuru() then Ok(SuruForm("しろ", "しろ", "為ろ"))
      else if IsException() && KuruForm(Inflection.Imperative, Short).Some? then
        Ok(KuruForm(Inflection.Imperative, Short).value)
      else if IsPolite() then Ok(word.StripEnd(1).PushStr("い"))
      else StemPotential()
    }

    function ImperativeNegative(): Result<Word> {
      Ok(word.PushStr("な"))
    }

    /** The causative; its する test also accepts a kanji reading ending in 為る. */
    function Causative(): Result<Word> {
      if verbType == Ichidan then Ok(word.StripEnd(1).PushStr("させる"))
      else if IsException() && word.EndsWith("する", Some("為る")) then Ok(SuruForm("させる", "させる", "為せる"))
      else if IsException() && KuruForm(Inflection.Causative, Long).Some? then
        Ok(KuruForm(Inflection.Causative, Long).value)
      else
        var stem :- NaiStem();
        Ok(stem.PushStr("せる"))
    }

    function CausativePassive(): Result<Word> {
      if verbType == Ichidan then Ok(word.StripEnd(1).PushStr("させられる"))
      else if IsException() && IsSuru() then Ok(SuruForm("させられる", "させられる", "為せられる"))
      else if IsException() && KuruForm(Inflection.CausativePassive, Long).Some? then
        Ok(KuruForm(Inflection.CausativePassive, Long).value)
      else
        var stem :- NaiStem();
        Ok(stem.PushStr("される"))
    }

    function NegativeCausativePassive(): Result<Word> {
      var form :- CausativePassive();
      Ok(form.StripEnd(1).PushStr("ない"))
    }

    function NegativeCausative(): Result<Word> {
      var form :- Causative();
      Ok(form.StripEnd(1).PushStr("ない"))
    }

    /** The passive; ichidan verbs insert ら between the stem and れる. */
    function Passive(): Result<Word> {
      if IsException() && IsSuru() then Ok(SuruForm("される", "される", "為れる"))
      else if IsException() && KuruForm(Inflection.Passive, Long).Some? then
        Ok(KuruForm(Inflection.Passive, Long).value)
      else
        var stem :- NaiStem();
        var stem' := if verbType == Ichidan then stem.Push('ら') else stem;
        Ok(stem'.PushStr("れる"))
    }

    function NegativePassive(): Result<Word> {
      var form :- Passive();
      Ok(form.StripEnd(1).PushStr("ない"))
    }

    function Tara(): Result<Word> {
      var past :- Past(Short);
      Ok(past.PushStr("ら"))
    }

    function NegativeTara(): Result<Word> {
      var past :- NegativePast(Short);
      Ok(past.PushStr("ら"))
    }

    function Ba(): Result<Word> {
      var stem :- BaStem();
      Ok(stem.PushStr("ば"))
    }

    function NegativeBa(): Result<Word> {
      var negative :- Negative(Short);
      Ok(negative.StripEnd(1).PushStr("ければ"))
    }

    function Volitional(form: WordForm): Result<Word> {
      match form
      case Short => VolitionalShort()
      case Long => VolitionalLong()
    }

    function NegativeVolitional(): Result<Word> {
      Ok(word.PushStr("まい"))
    }

    /** The ず form; its する test applies to verbs of every class. */
    function Zu(): Result<Word> {
      if IsSuru() then Ok(SuruForm("せず", "せず", "為ず"))
      else
        var negative :- Negative(Short);
        Ok(negative.StripEnd(2).PushStr("ず"))
    }

    function Desiderative(): Result<Word> {
      var stem :- StemLong();
      Ok(stem.PushStr("たい"))
    }

    function NegativeDesiderative(): Result<Word> {
      var stem :- StemLong();
      Ok(stem.PushStr("たくない"))
    }
  }

  /**
   * `map_ending` as the source writes it: a search through the table that
   * returns at the first entry whose key is the ending.
   */
  method MapEndingSearch(v: Verb, mappings: Mappings) returns (r: Result<Word>)
    ensures r == v.MapEnding(mappings)
  {
    if |v.word.kana| == 0 {
      return Err(UnexpectedEnding);
    }
    var ending := v.word.kana[|v.word.kana| - 1];
    var newWord := v.word.StripEnd(1);
    var i := 0;
    while i < |mappings|
      invariant 0 <= i <= |mappings|
      invariant forall j :: 0 <= j < i ==> mappings[j].0 != ending
    {
      if mappings[i].0 == ending {
        LookupFirst(mappings, ending, i);
        return Ok(newWord.Push(mappings[i].1));
      }
      i := i + 1;
    }
    return Err(UnexpectedEnding);
  }
}
