# jp_inflections — a verified model of the conjugation engine

`jp_inflections` conjugates Japanese verbs. A word carries a kana reading and
an optional kanji reading. A verb is such a word together with its class:
godan, ichidan or exception. Every conjugation maps the dictionary form to a
fresh word, or it fails with `NotAVerb` or `UnexpectedEnding`. The engine has
four layers, and this project models each one in Dafny:

- **Syllable classification** (`umlaut.dfy`, `alphabet.dfy`, `syllable.dfy`).
  A constant hiragana table of rows and vowel letters is searched first-match.
  The search gives a character its `(Row, Umlaut)` pair. The "is this a
  dictionary-form verb" test is built on top of it.
- **The dual-reading word** (`word.dfy`). It provides character-count
  `StripEnd`, mirrored `Push`/`PushStr`, suffix tests, and suffix replacement.
  These keep the kana and kanji readings in lockstep.
- **The irregular くる table** (`special_verbs.dfy`, `kuru.dfy`). This is a
  suffix-replacement table keyed by inflection. It keeps any compound prefix,
  so よせくる becomes よせきた.
- **The conjugation engine** (`verb.dfy`). Five godan stem tables map the nine
  godan endings. On top of them sit:
  - the te/ta sound change, with voicing after ぐ, む, ぶ and ぬ;
  - overrides tried in a fixed order: いく/行く, then する, then くる, then
    ある, then the five polite verbs;
  - about twenty-five public forms, each built as a stem plus a literal
    suffix, or as another form with its trailing characters replaced.

The model is a set of pure functions over `Word` values, plus one method.
That method is `map_ending`'s search loop, proved equal to the function that
specifies it. The lemmas are in `verb_properties.dfy`. The worked examples
from the crate's doc-tests and test suite are in `verb_examples.dfy`.

## Model

| member | source | states |
|---|---|---|
| Vowels.FromLetter | src/umlaut.rs:10-21 | each of the five vowel letters a, e, i, o, u maps to the variant whose letter it is; no other character is accepted |
| Vowels.FromLetterInjective | src/umlaut.rs:12-16 | distinct vowel letters give distinct variants |
| Vowels.FromLetterOnto | src/umlaut.rs:2-8 | every one of the five variants is the image of some vowel letter |
| AlphabetShape.FullRows | src/alphabet.rs:5-134 | the vowel row and the rows K to R each list exactly five letters, in the order A, E, I, O, U |
| AlphabetShape.ShortRows | src/alphabet.rs:4-140 | the table has 15 rows; the Y row lists only や/A, よ/O and ゆ/U; the W row lists わ twice, as A and as O |
| AlphabetShape.NoNSpecialRow | src/alphabet.rs:4-140 | no row of the table is the NSpecial row |
| Syllables.FindRowIsLookup | src/syllable.rs:74-89 | the nested row-by-row, letter-by-letter search equals a first-match lookup in the table flattened in order |
| Syllables.GetInfoIsFirstMatch | src/syllable.rs:74-89 | a character's info is the (row, umlaut) of the first table entry holding that character, and None when no entry holds it |
| Syllables.FindRowListed | src/syllable.rs:74-89 | the search succeeds exactly when some row from the starting one lists the character |
| Syllables.FindRowYieldsListedRow | src/syllable.rs:74-89 | a successful search returns a row that lists the character, with that letter's umlaut |
| Syllables.SkipRows | src/syllable.rs:77-86 | rows that do not list the character do not change the search's result |
| Syllables.FindLetterIsLookup | src/syllable.rs:78-85 | the inner loop over one row's letters equals a first-match lookup in that row's entries |
| Syllables.FindLetterListed | src/syllable.rs:78-85 | the inner loop succeeds exactly when the row lists the character from the given index on |
| Syllables.FindLetter | src/syllable.rs:78-85 | no contract of its own; the inner loop of the search, stated by Syllables.FindLetterIsLookup and Syllables.FindLetterListed |
| Syllables.FindRow | src/syllable.rs:74-89 | no contract of its own; the outer loop of the search, stated by Syllables.FindRowIsLookup, Syllables.FindRowListed and Syllables.FindRowYieldsListedRow |
| Syllables.Syllable.GetInfo | src/syllable.rs:74-89 | no contract of its own; Syllables.GetInfoIsFirstMatch states that it is the first-match lookup of the table flattened row by row, and Classification.NeverNSpecial that it never yields the NSpecial row |
| Syllables.Syllable.GetChar | src/syllable.rs:92-94 | no contract of its own; Syllables.FromChar states that it gives back the character the syllable was built from |
| Syllables.Syllable.EndsWith | src/syllable.rs:59-63 | no contract of its own; true exactly when the character classifies with the given vowel, as Classification.GodanEndingsAreU, Classification.DocumentedExamples and Classification.UnlistedEndsWithNothing state |
| Syllables.FromChar | src/syllable.rs:36-40 | the syllable built from a character gives that character back from GetChar |
| Syllables.FromStr | src/syllable.rs:42-46 | a non-empty string gives the syllable of its first character; the empty string, where the source panics, is excluded |
| Syllables.Voiced | src/verb.rs:740-743 | voicing maps て to で and た to だ |
| Syllables.Syllable.IsValid | src/syllable.rs:96-99 | as written: true exactly when the character is NOT in the hiragana table |
| Syllables.Syllable.IsHiragana | src/syllable.rs:95-99 | corrected: true exactly when the character is in the hiragana table |
| Classification.GodanEndingsAreU | src/alphabet.rs:12-132 | the nine godan endings う, く, ぐ, す, つ, ぬ, ぶ, む and る classify with the U vowel, each in its own row |
| Classification.OtherUSyllables | src/alphabet.rs:52-137 | ず, づ, ふ, ぷ and ゆ also classify with U, so they pass the verb test |
| Classification.WaRowAndMissingLetters | src/alphabet.rs:139 | わ classifies as (W, A) by first match; を and ん classify as nothing |
| Classification.DocumentedExamples | src/syllable.rs:55-72 | が is (G, A) and ends with A; ぬ does not end with A |
| Classification.NeverNSpecial | src/syllable.rs:74-89 | no character ever classifies into the NSpecial row |
| Classification.UnlistedEndsWithNothing | src/syllable.rs:59-63 | a character absent from the table ends with no vowel |
| Classification.IsValidIsInverted | src/syllable.rs:96-99 | あ is hiragana yet IsValid is false; を is not in the table yet IsValid is true |
| Classification.IsHiraganaOfTable | src/syllable.rs:96-99 | every letter listed in the table is hiragana by the corrected test |
| Words.Word.IsVerb | src/word.rs:59-65 | true exactly when the kana is non-empty and its last character classifies with the U vowel |
| Words.Word.RequireVerb | src/word.rs:214-216 | succeeds exactly for verbs, and otherwise fails with NotAVerb |
| Verbs.IntoVerb | src/word.rs:74-78 | succeeds exactly when the word is a verb, wrapping it unchanged with the given class; otherwise fails with NotAVerb |
| Words.Word.HasReading | src/word.rs:82-96 | true exactly when the kana is equal, or both kanji readings are present and equal |
| Words.Word.EndsWith | src/word.rs:138-152 | the same test on suffixes; with no kanji pattern it is a test on the kana alone |
| Words.Word.StripSuffix | src/word.rs:100-110 | succeeds exactly when the kana has the suffix, a kanji pattern is given, and a present kanji has the kanji suffix; the prefixes rebuild the readings; a word without kanji yields no kanji prefix |
| Words.Word.NewWithSuffixReplaced | src/word.rs:114-134 | fails exactly when StripSuffix fails; otherwise gives prefix plus new suffix in kana, kanji only when the word has kanji and a new kanji suffix is given, and no inflections |
| Words.SuffixReplacedRoundTrip | src/word.rs:114-134 | replacing a suffix pair and then replacing it back restores both readings |
| Words.Word.GetReading | src/word.rs:155-161 | the kanji reading when there is one, else the kana |
| Verbs.Verb.GetReading | src/verb.rs:45-47 | a verb's reading is its kanji reading when it has one, and its kana reading otherwise |
| Words.Word.TryKana | src/word.rs:163-169 | the kana when asked for, otherwise the preferred reading |
| Words.Word.EndingSyllable | src/word.rs:172-174 | None exactly when the kana is empty; otherwise the syllable of the last kana character |
| Words.Word.StripEnd | src/word.rs:177-193 | removes min(n, length) trailing characters from the kana and, independently, from the kanji; a missing kanji stays missing; inflections are kept |
| Words.StripEndTwice | src/word.rs:177-193 | stripping m and then n characters is stripping m + n |
| Words.Word.PushStr | src/word.rs:196-202 | appends the same string to the kana and, only when present, to the kanji; inflections are kept |
| Words.Word.Push | src/word.rs:205-211 | pushing a character is pushing the one-character string |
| Words.PushStrThenStripEnd | src/word.rs:177-202 | stripping what was just pushed gives the word back |
| Words.PushStrAppend | src/word.rs:196-202 | pushing s and then t is pushing s + t |
| Words.New | src/word.rs:32-38 | a new word holds the given readings and no inflections |
| SpecialVerbs.SpecialVerb.Suffix | src/special_verbs/mod.rs:31-41 | an entry exists exactly for Stem, StemPotential, Te, Past, Passive, Causative, CausativePassive, Negative and Imperative; Stem and Negative choose by word form |
| SpecialVerbs.SpecialVerb.FormatVerb | src/special_verbs/mod.rs:10-42 | succeeds exactly for an inflection with an entry on a word ending in the dictionary pair (the suffix to strip defaults to that pair); the result keeps the prefix before the dictionary suffix and appends the entry's suffix, in kana and kanji |
| SpecialVerbs.OnlyStemAndNegativeDependOnForm | src/special_verbs/mod.rs:32-39 | every other inflection gives the same suffix for the short and the long form |
| SpecialVerbs.StemBaUnreachable | src/special_verbs/mod.rs:31-41 | formatting with StemBa always fails, so the stem-ba entry is never used |
| KuruVerb.KuruSuffixes | src/special_verbs/kuru.rs:8-28 | the dictionary pair is くる/来る; the stem is こ/来 when short and き/来 when long |
| KuruVerb.FormatKeepsPrefix | src/special_verbs/kuru.rs:6-68 | any prefix followed by くる/来る is formatted to the same prefix followed by the inflection's suffix pair |
| KuruVerb.BareAndCompoundKuru | src/special_verbs/kuru.rs:77-106 | くる gives past きた/来た and short negative こない/来ない; よせくる/寄せ来る keeps its prefix and gives よせきた/寄せ来た and よせこない/寄せ来ない |
| KuruVerb.TeAndPastEndInMora | src/special_verbs/kuru.rs:31-38 | every formatted te form ends in て and every past form in た, in both readings |
| Verbs.KeysLookup | src/verb.rs:1024-1037 | a character is a key of a table exactly when the lookup finds it |
| Verbs.Verb.MapEnding | src/verb.rs:1024-1037 | fails with UnexpectedEnding exactly when the kana is empty or its last character is not a key; otherwise changes only the last kana character, and the last kanji character if present, to the table image of the last kana character |
| Verbs.MapEndingSearch | src/verb.rs:1024-1037 | the search loop with early return computes exactly MapEnding |
| VerbProperties.StemTableFailsExactly | src/verb.rs:1024-1037 | with a table keyed by the nine godan endings, the lookup fails, with UnexpectedEnding, exactly when the word does not end in one of them |
| VerbProperties.TablesListGodanEndings | src/verb.rs:780-999 | the nai, long, potential, ba, volitional and te tables are each keyed by exactly the nine godan endings |
| VerbProperties.GodanStemsFromTables | src/verb.rs:780-999 | for a godan verb each stem is its table's lookup; the long stem is a lookup only for a non-polite verb |
| VerbProperties.GodanNaiStem | src/verb.rs:780-819 | the godan nai stem is the nai-table lookup |
| VerbProperties.GodanLongStem | src/verb.rs:820-862 | the godan long stem of a non-polite verb is the long-table lookup |
| VerbProperties.GodanNegativesFromTables | src/verb.rs:762-779 | apart from ある, a godan short negative and short negative past are the nai stem plus ない/なかった; a non-polite long negative is the long stem plus ません |
| VerbProperties.GodanPotentialForms | src/verb.rs:620-647 | a godan verb's short and long potential and negative potential are the potential-table lookup plus る, ます, ない and ません, its ba form is the ba-table lookup plus ば, and its short volitional is the volitional-table lookup plus う; each fails when the lookup does |
| VerbProperties.GodanImperative | src/verb.rs:251-300 | a non-polite godan verb's imperative is the potential-table lookup alone |
| VerbProperties.GodanDesiderative | src/verb.rs:1000-1011 | a non-polite godan verb's desiderative and negative desiderative are the long-table lookup plus たい and たくない |
| VerbProperties.IchidanPotentialForms | src/verb.rs:863-868 | an ichidan verb's short and long potential and negative potential put られる, られます, られない and られません in place of the final character |
| VerbProperties.IchidanOtherForms | src/verb.rs:251-256 | an ichidan verb's imperative, ba, short volitional, desiderative and negative desiderative put ろ, れば, よう, たい and たくない in place of the final character (the ichidan stems are at src/verb.rs:906, 983 and 76-95) |
| VerbProperties.GodanLongForms | src/verb.rs:648-761 | a non-polite godan verb's polite present, long past and long negative past are the long-table lookup plus ます, ました and ませんでした, failing when the lookup does |
| VerbProperties.GodanCausativeForms | src/verb.rs:317-481 | a godan verb's causative, causative passive and passive are the nai-table lookup plus せる, される and れる, failing when the lookup does |
| VerbProperties.IchidanCausativeForms | src/verb.rs:317-481 | an ichidan verb's causative, causative passive and passive put させる, させられる and られる in place of the final character |
| VerbProperties.IchidanNegativeAndPoliteForms | src/verb.rs:648-779 | an ichidan verb's polite present, long negative and long negative past put ます, ません and ませんでした in place of the final character, and so does its short negative past with なかった unless the kana is ある |
| VerbProperties.IchidanStems | src/verb.rs:76-95 | an ichidan verb's stems are strip_end(1); its short negative (apart from ある) adds ない and its long past adds ました |
| Verbs.ReplaceLastMora | src/verb.rs:693-702 | replaces the last character of each present reading by the given mora, keeping its length and every earlier character; an empty reading becomes the mora alone; a missing kanji stays missing; inflections are kept |
| Verbs.Verb.TeRuleGodan | src/verb.rs:724-747 | succeeds exactly when the te table knows the ending; then appends one mora after the mapped stem, voiced exactly when the ending is ぐ, む, ぶ or ぬ; the kanji reading gets the mapped stem's kanji plus the same mora; inflections are kept |
| Verbs.Verb.TeRule | src/verb.rs:673-714 | every success ends in the requested mora or its voiced form; every failure is UnexpectedEnding |
| VerbProperties.TeRulePair | src/verb.rs:673-714 | the te and the ta rule fail together and otherwise differ only in the final mora (て/た or で/だ), in both readings |
| VerbProperties.TeRuleGodanPair | src/verb.rs:724-747 | the godan te and ta rules fail together and otherwise differ only in the final mora |
| VerbProperties.GodanTeRule | src/verb.rs:724-747 | a godan verb without overrides gets the te table's image plus the mora, voiced after ぐ, む, ぶ, ぬ |
| VerbProperties.SuruPair | src/verb.rs:681-690 | for する verbs the te and ta results differ only in the final mora |
| VerbProperties.KuruPair | src/verb.rs:692-703 | for くる verbs the te and ta results differ only in the final mora |
| VerbProperties.IchidanPair | src/verb.rs:717-721 | for ichidan verbs the te and ta results differ only in the final mora |
| VerbProperties.PastDiffersFromTeInLastMora | src/verb.rs:133-139 | for every verb but いらっしゃる, the te form and the short past fail together and otherwise differ only in the final mora |
| VerbProperties.GodanVoicing | src/verb.rs:738-746 | a godan te form ends in で, and its past in だ, exactly when the dictionary ending is ぐ, む, ぶ or ぬ |
| VerbProperties.IkuComesFirst | src/verb.rs:674-679 | a kana ending in いく or a kanji ending in 行く gives past いった/行った and te form いって/行って, whatever the class and prefix |
| VerbProperties.AruAfterOverrides | src/verb.rs:706-708 | a word ending in ある (and not in いく/行く) gives past あった and te form あって with no kanji |
| VerbProperties.SuruTeRule | src/verb.rs:681-690 | an exception する verb's te rule is し plus the mora, keeping any prefix |
| VerbProperties.CompoundSuruFacts | src/verb.rs:1039-1041 | a compound する verb is not bare する, いらっしゃる, a くる verb or an いく verb, and no くる entry applies to it |
| VerbProperties.CompoundSuruStems | src/verb.rs:791-802 | a compound する verb keeps its prefix and takes し (both stems), でき, すれ and しよ as its stems |
| VerbProperties.CompoundSuruForms | src/verb.rs:259-270 | a compound する verb keeps its prefix: して, した (no 行く kanji), しろ, させる, される, させられる and せず |
| VerbProperties.BareSuruStems | src/verb.rs:791-802 | bare する has the fixed stems し/為, でき/出来, すれ/為れ and しよ/為よ, whatever its kanji |
| VerbProperties.BareSuruStemForms | src/verb.rs:869-880 | bare する has fixed forms できる/出来る, すれば/為れば and しよう/為よう |
| VerbProperties.BareSuruTeForm | src/verb.rs:682-686 | bare する (with no 行く kanji) has te form して/為て |
| VerbProperties.BareSuruPast | src/verb.rs:682-686 | bare する (with no 行く kanji) has past した/為た |
| VerbProperties.BareSuruNotIku | src/verb.rs:674-686 | bare する with no 行く kanji is not caught by the いく override |
| VerbProperties.BareSuruForms | src/verb.rs:259-270 | bare する gives しろ/為ろ, させる/為せる, される/為れる, させられる/為せられる and せず/為ず |
| VerbProperties.ZuSuruAnyClass | src/verb.rs:600-617 | a kana ending in する (with a prefix) gives prefix + せず for every class |
| VerbProperties.PoliteStemAndImperative | src/verb.rs:1044-1055 | the five polite verbs (non-ichidan) take strip_end(1) + い as long stem and as imperative |
| Verbs.Verb.IsPolite | src/verb.rs:1044-1055 | every polite verb ends in る |
| Verbs.Verb.IsDictForm | src/verb.rs:59-61 | no contract of its own; true exactly when no inflection has been applied to the word |
| Verbs.Verb.IsException | src/verb.rs:1039-1041 | no contract of its own; the class test that guards every する and くる override; VerbProperties.CompoundSuruFacts and VerbProperties.UnlistedEndingFacts state which overrides apply |
| Verbs.Verb.IsSuru | src/verb.rs:259-270 | no contract of its own; the kana ends in する; VerbProperties.CompoundSuruFacts and VerbProperties.UnlistedEndingFacts use it |
| Verbs.Verb.KuruForm | src/verb.rs:692-703 | no contract of its own; the くる table applied to the verb's word, stated by KuruVerb.FormatKeepsPrefix and VerbProperties.KuruFormEndsInRu |
| Verbs.Verb.SuruForm | src/verb.rs:681-690 | no contract of its own; bare する gets a fixed word and any other する verb keeps its prefix, as VerbProperties.BareSuruForms, VerbProperties.CompoundSuruForms and VerbProperties.SuruTeRule state |
| Verbs.Verb.MappedStem | src/verb.rs:1013-1023 | no contract of its own; VerbProperties.GodanStemsFromTables states that for a godan verb it is the table lookup |
| Verbs.Verb.NaiStem | src/verb.rs:780-819 | no contract of its own; stated by VerbProperties.GodanNaiStem, VerbProperties.IchidanStems, VerbProperties.CompoundSuruStems, VerbProperties.BareSuruStems and VerbProperties.BadEndingStemsFail |
| Verbs.Verb.StemLong | src/verb.rs:820-862 | no contract of its own; stated by VerbProperties.GodanLongStem, VerbProperties.PoliteStemAndImperative, VerbProperties.IchidanStems, VerbProperties.CompoundSuruStems and VerbProperties.BadEndingStemsFail |
| Verbs.Verb.StemPotential | src/verb.rs:863-903 | no contract of its own; stated by VerbProperties.GodanStemsFromTables, VerbProperties.CompoundSuruStems, VerbProperties.BareSuruStems and VerbProperties.BadEndingStemsFail |
| Verbs.Verb.BaStem | src/verb.rs:904-942 | no contract of its own; stated by VerbProperties.GodanStemsFromTables, VerbProperties.KuruBaStem, VerbProperties.BareSuruStems and VerbProperties.BadEndingStemsFail |
| Verbs.Verb.VolitionalStem | src/verb.rs:957-999 | no contract of its own; stated by VerbProperties.GodanStemsFromTables, VerbProperties.KuruVolitionalDropsPrefix, VerbProperties.BareSuruStems and VerbProperties.BadEndingStemsFail |
| Verbs.Verb.TeRuleIchidan | src/verb.rs:717-721 | no contract of its own; stated by VerbProperties.IchidanPair and VerbExamples.TaberuTe |
| Verbs.Verb.GetStem | src/verb.rs:76-95 | no contract of its own; stated by VerbProperties.IchidanStems, VerbProperties.BadEndingStemsFail, VerbProperties.AcceptedButUnconjugable, VerbExamples.EndingUNaiStem and VerbExamples.EndingRuStems |
| Verbs.Verb.Dictionary | src/verb.rs:96-115 | no contract of its own; the short form is the word itself (VerbProperties.TotalForms); the long form is the long stem plus ます, stated by VerbProperties.GodanLongForms and VerbProperties.IchidanNegativeAndPoliteForms, and fails with the long stem (VerbProperties.BadEndingFails) |
| Verbs.Verb.DictionaryPolite | src/verb.rs:648-653 | no contract of its own; the long stem plus ます: the long-table lookup plus ます for a non-polite godan verb (VerbProperties.GodanLongForms), strip_end(1) plus ます for an ichidan verb (VerbProperties.IchidanNegativeAndPoliteForms), failing with the long stem (VerbProperties.BadEndingFails) |
| Verbs.Verb.Negative | src/verb.rs:116-132 | no contract of its own; stated by VerbProperties.GodanNegativesFromTables, VerbProperties.IchidanStems, VerbProperties.IchidanNegativeAndPoliteForms, VerbProperties.BadEndingFails, VerbExamples.TaberuNegative and VerbExamples.MamoruNegative |
| Verbs.Verb.NegativeShort | src/verb.rs:762-772 | no contract of its own; stated by VerbProperties.GodanNegativesFromTables, VerbProperties.IchidanStems and VerbExamples.TaberuNegative |
| Verbs.Verb.NegativeLong | src/verb.rs:773-779 | no contract of its own; the long stem plus ません, stated by VerbProperties.GodanNegativesFromTables (non-polite godan), VerbProperties.IchidanNegativeAndPoliteForms (ichidan) and VerbExamples.MamoruPoliteNegative |
| Verbs.Verb.TeForm | src/verb.rs:133-150 | no contract of its own; stated by VerbProperties.PastDiffersFromTeInLastMora, VerbProperties.IrassharuTeForm, VerbProperties.BadEndingTeFails and the te examples of VerbExamples |
| Verbs.Verb.NegativeTeForm | src/verb.rs:151-169 | no contract of its own; stated by VerbProperties.NegativeFormsFromNaiStem and VerbProperties.BadEndingNegativeFormsFail |
| Verbs.Verb.Past | src/verb.rs:170-189 | no contract of its own; stated by VerbProperties.PastDiffersFromTeInLastMora, VerbProperties.GodanLongForms, VerbProperties.IchidanStems, VerbProperties.BadEndingTeFails and VerbProperties.BadEndingLongFormsFail |
| Verbs.Verb.PastShort | src/verb.rs:750-754 | no contract of its own; the ta rule; stated by VerbProperties.TeRulePair and VerbProperties.PastDiffersFromTeInLastMora |
| Verbs.Verb.PastLong | src/verb.rs:755-761 | no contract of its own; the long stem plus ました: the long-table lookup plus ました for a non-polite godan verb (VerbProperties.GodanLongForms), strip_end(1) plus ました for an ichidan verb (VerbProperties.IchidanStems), failing with the long stem (VerbProperties.BadEndingLongFormsFail) |
| Verbs.Verb.NegativePast | src/verb.rs:190-209 | no contract of its own; stated by VerbProperties.GodanNegativesFromTables, VerbProperties.GodanLongForms, VerbProperties.IchidanNegativeAndPoliteForms, VerbProperties.BadEndingNegativeFormsFail, VerbProperties.BadEndingLongFormsFail and VerbExamples.NarauNegativePast |
| Verbs.Verb.NegativePastShort | src/verb.rs:655-665 | no contract of its own; the nai stem plus なかった apart from ある: stated by VerbProperties.GodanNegativesFromTables (godan), VerbProperties.IchidanNegativeAndPoliteForms (ichidan) and VerbExamples.NarauNegativePast |
| Verbs.Verb.NegativePastLong | src/verb.rs:666-672 | no contract of its own; the long stem plus ませんでした: stated by VerbProperties.GodanLongForms (non-polite godan), VerbProperties.IchidanNegativeAndPoliteForms (ichidan) and, for failure, VerbProperties.BadEndingLongFormsFail |
| Verbs.Verb.Potential | src/verb.rs:210-229 | no contract of its own; stated by VerbProperties.GodanPotentialForms, VerbProperties.IchidanPotentialForms, VerbProperties.BareSuruStemForms and VerbProperties.BadEndingFails |
| Verbs.Verb.PotentialShort | src/verb.rs:634-640 | no contract of its own; stated by VerbProperties.GodanPotentialForms and VerbProperties.IchidanPotentialForms |
| Verbs.Verb.PotentialLong | src/verb.rs:641-647 | no contract of its own; stated by VerbProperties.GodanPotentialForms and VerbProperties.IchidanPotentialForms |
| Verbs.Verb.NegativePotential | src/verb.rs:230-250 | no contract of its own; stated by VerbProperties.GodanPotentialForms, VerbProperties.IchidanPotentialForms and VerbProperties.BadEndingLongFormsFail |
| Verbs.Verb.NegativePotentialShort | src/verb.rs:620-626 | no contract of its own; stated by VerbProperties.GodanPotentialForms and VerbProperties.IchidanPotentialForms |
| Verbs.Verb.NegativePotentialLong | src/verb.rs:627-633 | no contract of its own; stated by VerbProperties.GodanPotentialForms and VerbProperties.IchidanPotentialForms |
| Verbs.Verb.Imperative | src/verb.rs:251-300 | no contract of its own; stated by VerbProperties.GodanImperative, VerbProperties.IchidanOtherForms, VerbProperties.PoliteStemAndImperative, VerbProperties.BareSuruForms, VerbProperties.CompoundSuruForms and VerbProperties.BadEndingFails |
| Verbs.Verb.ImperativeNegative | src/verb.rs:301-316 | no contract of its own; the word plus な, never failing (VerbProperties.TotalForms) |
| Verbs.Verb.Causative | src/verb.rs:317-362 | no contract of its own; the nai stem plus せる for a godan verb (VerbProperties.GodanCausativeForms), strip_end(1) plus させる for an ichidan verb (VerbProperties.IchidanCausativeForms); also stated by VerbProperties.CausativeEndsInRu, VerbProperties.BareSuruForms, VerbProperties.CompoundSuruForms and VerbProperties.BadEndingFails |
| Verbs.Verb.CausativePassive | src/verb.rs:363-408 | no contract of its own; the nai stem plus される for a godan verb (VerbProperties.GodanCausativeForms), strip_end(1) plus させられる for an ichidan verb (VerbProperties.IchidanCausativeForms); also stated by VerbProperties.CausativePassiveEndsInRu, VerbProperties.BareSuruForms, VerbProperties.CompoundSuruForms and VerbProperties.BadEndingNegativeFormsFail |
| Verbs.Verb.NegativeCausativePassive | src/verb.rs:409-424 | no contract of its own; stated by VerbProperties.NegativesReplaceFinalRu and VerbProperties.BadEndingNegativeFormsFail |
| Verbs.Verb.NegativeCausative | src/verb.rs:425-441 | no contract of its own; stated by VerbProperties.NegativesReplaceFinalRu and VerbProperties.BadEndingNegativeFormsFail |
| Verbs.Verb.Passive | src/verb.rs:442-481 | no contract of its own; the nai stem plus れる for a godan verb (VerbProperties.GodanCausativeForms), strip_end(1) plus られる for an ichidan verb (VerbProperties.IchidanCausativeForms); also stated by VerbProperties.PassiveEndsInRu, VerbProperties.BareSuruForms, VerbProperties.CompoundSuruForms and VerbProperties.BadEndingFails |
| Verbs.Verb.NegativePassive | src/verb.rs:482-498 | no contract of its own; stated by VerbProperties.NegativesReplaceFinalRu and VerbProperties.BadEndingNegativeFormsFail |
| Verbs.Verb.Tara | src/verb.rs:499-514 | no contract of its own; stated by VerbProperties.TaraFromPast and VerbProperties.BadEndingTeFails |
| Verbs.Verb.NegativeTara | src/verb.rs:515-530 | no contract of its own; stated by VerbProperties.TaraFromPast and VerbProperties.BadEndingNegativeFormsFail |
| Verbs.Verb.Ba | src/verb.rs:531-546 | no contract of its own; stated by VerbProperties.GodanPotentialForms, VerbProperties.IchidanOtherForms, VerbProperties.KuruBa and VerbProperties.BadEndingFails |
| Verbs.Verb.NegativeBa | src/verb.rs:547-566 | no contract of its own; stated by VerbProperties.NegativeFormsFromNaiStem and VerbProperties.BadEndingNegativeFormsFail |
| Verbs.Verb.Volitional | src/verb.rs:567-583 | no contract of its own; stated by VerbProperties.GodanPotentialForms, VerbProperties.PoliteVolitional, VerbProperties.IchidanOtherForms, VerbProperties.KuruVolitionalDropsPrefix, VerbProperties.BareSuruStemForms, VerbProperties.BadEndingFails and VerbProperties.BadEndingLongFormsFail |
| Verbs.Verb.VolitionalShort | src/verb.rs:943-949 | no contract of its own; the volitional stem plus う: the volitional-table lookup plus う for a godan verb (VerbProperties.GodanPotentialForms), よう in place of る for an ichidan verb (VerbProperties.IchidanOtherForms), こよう/来よう for a くる verb (VerbProperties.KuruVolitionalDropsPrefix) |
| Verbs.Verb.VolitionalLong | src/verb.rs:950-956 | no contract of its own; stated by VerbProperties.PoliteVolitional |
| Verbs.Verb.NegativeVolitional | src/verb.rs:584-599 | no contract of its own; the word plus まい, never failing (VerbProperties.TotalForms) |
| Verbs.Verb.Zu | src/verb.rs:600-617 | no contract of its own; stated by VerbProperties.ZuSuruAnyClass, VerbProperties.AruZu, VerbProperties.NegativeFormsFromNaiStem and VerbProperties.BadEndingNegativeFormsFail |
| Verbs.Verb.Desiderative | src/verb.rs:1000-1005 | no contract of its own; stated by VerbProperties.GodanDesiderative, VerbProperties.IchidanOtherForms and VerbProperties.BadEndingFails |
| Verbs.Verb.NegativeDesiderative | src/verb.rs:1006-1011 | no contract of its own; stated by VerbProperties.GodanDesiderative, VerbProperties.IchidanOtherForms and VerbProperties.BadEndingLongFormsFail |
| VerbProperties.IrassharuTeForm | src/verb.rs:133-139 | いらっしゃる has te form いらして with no kanji |
| VerbProperties.NegativeFormsFromNaiStem | src/verb.rs:151-155 | apart from ある, the negative te form, negative ba and (for non-する) ず form are the nai stem plus なくて, なければ and ず |
| VerbProperties.AruZu | src/verb.rs:600-617 | ある has ず form ず with no kanji |
| VerbProperties.TaraFromPast | src/verb.rs:499-520 | tara and negative tara are the short past and short negative past plus ら, failing when those fail |
| VerbProperties.PoliteVolitional | src/verb.rs:950-954 | the long volitional is the long stem plus ましょう |
| VerbProperties.CausativeEndsInRu | src/verb.rs:317-362 | every successful causative ends in る, in the kana and in the kanji when present |
| VerbProperties.PassiveEndsInRu | src/verb.rs:442-481 | every successful passive ends in る, in the kana and in the kanji when present |
| VerbProperties.CausativePassiveEndsInRu | src/verb.rs:363-408 | every successful causative passive ends in る, in the kana and in the kanji when present |
| VerbProperties.KuruFormEndsInRu | src/special_verbs/kuru.rs:49-61 | the くる causative, passive and causative passive end in る, in the kana and in the kanji when present |
| VerbProperties.NegativesReplaceFinalRu | src/verb.rs:409-498 | the negative causative, passive and causative passive succeed exactly when their base forms do; the base form then ends in る in both readings, and the negative replaces that る by ない in the kana and in the kanji, has a kanji exactly when the base form does, and keeps the inflections |
| VerbProperties.ReplaceRuByNai | src/verb.rs:409-498 | stripping a final る and pushing ない puts ない in place of the る in both readings, keeping the kanji's presence and the inflections |
| VerbProperties.KuruVolitionalDropsPrefix | src/verb.rs:972-978 | an exception verb ending in くる has the fixed volitional stem こよ/来よ and volitional こよう/来よう, prefix dropped |
| VerbProperties.KuruBaStemFromTable | src/verb.rs:924-929 | because the くる stem-ba entry is unreachable, くる's ba stem is the godan ba-table lookup |
| VerbProperties.KuruBaStem | src/verb.rs:904-942 | くる's ba stem replaces the final る by れ |
| VerbProperties.KuruBa | src/verb.rs:531-535 | くる's ba form is くれば/来れば |
| VerbProperties.TotalForms | src/verb.rs:96-101 | the short dictionary form, the negative imperative (+ な) and the negative volitional (+ まい) never fail |
| VerbProperties.UnlistedEndingFacts | src/verb.rs:1024-1037 | a word without a godan ending matches none of the する, くる, ある or いく overrides and is not polite |
| VerbProperties.BadEndingStemsFail | src/verb.rs:780-999 | for a non-ichidan verb without a godan ending every stem fails with UnexpectedEnding |
| VerbProperties.BadEndingFails | src/verb.rs:96-600 | such a verb's short and long negative, long dictionary form, short potential, imperative, passive, ba, short volitional and desiderative fail with UnexpectedEnding; so does the causative unless the kanji ends in 為る, which its する test also accepts |
| VerbProperties.BadEndingLongFormsFail | src/verb.rs:620-1011 | such a verb's long past, long negative past, long potential, both negative potentials, long volitional and negative desiderative fail with UnexpectedEnding |
| VerbProperties.BadEndingNegativeFormsFail | src/verb.rs:151-617 | such a verb's short negative past, negative te form, negative tara, negative ba, ず form, causative passive and both negative passives fail with UnexpectedEnding; so does the negative causative unless the kanji ends in 為る |
| VerbProperties.BadEndingTeFails | src/verb.rs:133-514 | such a verb's te form, short past and tara fail with UnexpectedEnding unless the いく/行く override applies |
| VerbProperties.AcceptedButUnconjugable | src/word.rs:59-78 | a word ending in ず, づ, ふ, ぷ or ゆ becomes a godan verb, yet both of its stems fail with UnexpectedEnding |
| VerbProperties.AcceptedAsVerb | src/word.rs:59-65 | a word ending in ず, づ, ふ, ぷ or ゆ passes the verb test |
| VerbProperties.MapEndingAt | src/verb.rs:1024-1037 | when the ending's first key is at index i, the lookup replaces the last character by entry i's image |
| VerbExamples.NarauIsAVerb | src/verb.rs:183 | ならう/習う is accepted as a godan verb |
| VerbExamples.NarauNegativePast | src/verb.rs:184-185 | ならう gives short negative past ならわなかった/習わなかった |
| VerbExamples.EndingUNaiStem | src/verb.rs:780-819 | a word ending in う takes わ in its nai stem |
| VerbExamples.EndingRuStems | src/verb.rs:780-862 | a word ending in る takes ら in its nai stem and り in its long stem |
| VerbExamples.TaberuTe | tests/te.rs:8-14 | たべる gives te form たべて/食べて |
| VerbExamples.TaberuNegative | tests/negative.rs:8-20 | たべる gives short negative たべない/食べない |
| VerbExamples.MamoruTe | tests/te.rs:19-25 | まもる gives te form まもって/守って |
| VerbExamples.MamoruNegative | tests/negative.rs:25-37 | まもる gives short negative まもらない/守らない |
| VerbExamples.MamoruPoliteNegative | tests/negative.rs:25-37 | まもる gives long negative まもりません/守りません |
| VerbExamples.KakuTe | tests/te.rs:41-47 | かく gives te form かいて/書いて |
| VerbExamples.OyoguTe | tests/te.rs:52-58 | およぐ gives te form およいで/泳いで |
| VerbExamples.HanasuTe | tests/te.rs:30-36 | はなす gives te form はなして/話して |
| VerbExamples.IkuTe | tests/te.rs:64-70 | いく gives te form いって/行って |
| VerbExamples.KuruNegative | tests/negative.rs:56-68 | くる gives short negative こない/来ない |
| VerbExamples.KuruTe | tests/te.rs:90-96 | くる gives te form きて/来て |

## Left out

- `push` and `push_str` change a `Word` in place through `&mut self`. The model returns the updated word as a new value. Each word has a single owner, so nothing else can observe the difference.
- `strip_end` counts UTF-8 bytes to find character boundaries. The model counts characters of a `seq<char>`.
- `Syllable::to_dakuten` is not part of this model. Voicing is modelled only for て → で and た → だ, which is all the te rule asks of it. `Verbs.Verb.TeRule` requires its mora to be て or た.
- The error module is not part of this model. Errors are the two-variant datatype `NotAVerb | UnexpectedEnding`.
- The crate's `Inflection` enum file lists only six tags. The engine and the special-verb table use seven more. The model declares one datatype holding all thirteen.
- The `SpecialVerb` trait is modelled as a datatype of suffix pairs. `SpecialKuru` is modelled as one constant value of it.
- `Deref for Verb`, `word_mut`, `set_kana`, `set_kanji` and the derived impls are left out. They are accessors with no behaviour of their own.
- `Umlaut`'s `From<char>` panics on a character other than a, e, i, o or u. `Vowels.FromLetter` requires a vowel letter instead.
- `Syllable`'s `From<&str>` panics on the empty string. `Syllables.FromStr` requires a non-empty string instead.
- The する branch of `mapped_stem` (src/verb.rs:1013-1023) is kept, but no caller reaches it, because each stem function handles する first. No lemma is stated about it.
- Bare する ignores the input kanji and returns fixed kanji such as 為ろ, 為せる and 出来る. This is what the code does, and the model follows the code. The crate's tests expect no kanji for bare する (tests/imperative.rs:38-44, tests/zu.rs:38-44, tests/potential.rs:56-64). But the shared test helper checks the kanji only when the expected kanji is present (tests/verb_test.rs:45-48), so those tests pass either way and do not settle which kanji is intended.
- The form functions of `Verbs.Verb` (`GetStem`, `Negative`, `TeForm`, …) carry no `ensures` of their own. Their results are stated by the lemmas in `VerbProperties` and `VerbExamples`. Those lemmas cover godan and ichidan verbs, the する, くる, ある, いく and polite overrides, and the failure cases; each form's row in the table names its lemmas.
- `Verbs.Verb.TeRule`: its own contract states only the final mora and the error kind. The full result of each branch is stated by the `*Pair`, `SuruTeRule`, `IkuComesFirst`, `AruAfterOverrides` and `GodanTeRule` lemmas.
- The doc-test and test-suite examples are proved for the forms listed in the table. The remaining expected outputs in the test files follow the same rules but are not stated one by one.

## Findings

| source | as written | input that shows it | evidently intended | confidence | as-written member | corrected member |
|---|---|---|---|---|---|---|
| src/syllable.rs:96-99 | `is_valid` returns true exactly when `get_info` finds no table entry, although its documentation says it tests for a valid hiragana character | 'あ' is reported not valid; 'を', which is missing from the table, is reported valid | true exactly when the character is in the hiragana table | not executed | Syllables.Syllable.IsValid (shown by Classification.IsValidIsInverted) | Syllables.Syllable.IsHiragana (proved by Classification.IsHiraganaOfTable) |
