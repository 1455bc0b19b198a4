/**
 * Strings and the dual-reading word (src/word.rs): a kana reading, an optional
 * kanji reading kept in step with it, and the inflections applied so far.
 */
module Strings {
  import opened Wrappers

  /** `s` is a suffix of `t` (Rust `str::ends_with`). */
  predicate IsSuffix(s: string, t: string) {
    |s| <= |t| && t[|t| - |s|..] == s
  }

  /** Rust `str::strip_suffix`: the part before `suffix`, if `t` ends with it. */
  function StripStrSuffix(t: string, suffix: string): (r: Option<string>)
    ensures r.Some? <==> IsSuffix(suffix, t)
    ensures r.Some? ==> r.value + suffix == t
  {
    if IsSuffix(suffix, t) then
      assert t[..|t| - |suffix|] + t[|t| - |suffix|..] == t;
      Some(t[..|t| - |suffix|])
    else None
  }

  /** The string without its last `n` characters; all of it goes when it is shorter. */
  function DropLast(s: string, n: nat): (r: string)
    ensures |r| == if n <= |s| then |s| - n else 0
    ensures r == s[..|r|]
  {
    if n <= |s| then s[..|s| - n] else []
  }

  /** Rust `String::pop` for its effect on the string: the last character goes, if there is one. */
  function Pop(s: string): (r: string)
    ensures |s| > 0 ==> r + [s[|s| - 1]] == s
    ensures |s| == 0 ==> r == s
  {
    if |s| == 0 then s else s[..|s| - 1]
  }
}

module Words {
  import opened Wrappers
  import opened Vowels
  import opened Syllables
  import Strings

  /**
   * The kinds of inflection the library names. The first six come from the
   * crate's own enum; the rest are the tags the conjugation code and the
   * special-verb table use.
   */
  datatype Inflection =
    | Positive | Negative | Past | Present | Polite | Te
    | Stem | StemPotential | StemBa | Passive | Causative | CausativePassive | Imperative

  /** The plain (short) and the polite (long) form of a word. */
  datatype WordForm = Short | Long

  /** The same optional string with `s` appended when there is one. */
  function MapAppend(o: Option<string>, s: string): (r: Option<string>)
    ensures r.Some? <==> o.Some?
    ensures r.Some? ==> r.value == o.value + s
  {
    match o
    case Some(x) => Some(x + s)
    case None => None
  }

  /** A Japanese word: its kana reading, optional kanji reading and applied inflections. */
  datatype Word = Word(kana: string, kanji: Option<string>, inflections: seq<Inflection>) {

    /** The last character of the kana reading classifies with the u-vowel. */
    predicate IsVerb()
      ensures IsVerb() <==>
                && |kana| > 0
                && Syllable(kana[|kana| - 1]).GetInfo().Some?
                && Syllable(kana[|kana| - 1]).GetInfo().value.umlaut == U
    {
      match EndingSyllable()
      case Some(s) => s.EndsWith(U)
      case None => false
    }

    /** Fails with NotAVerb exactly when the word is not a verb. */
    function RequireVerb(): (r: Result<()>)
      ensures r.Ok? <==> IsVerb()
      ensures r.Err? ==> r.error == NotAVerb
    {
      if IsVerb() then Ok(()) else Err(NotAVerb)
    }

    /**
     * The kana reading equals `k`, or both kanji readings are present and
     * equal; a missing kanji pattern asks for a kana match only.
     */
    predicate HasReading(k: string, kj: Option<string>)
      ensures HasReading(k, kj) <==>
                kana == k || (kanji.Some? && kj.Some? && kanji.value == kj.value)
    {
      if kana == k then true
      else match (kanji, kj)
        case (Some(w), Some(s)) => w == s
        case _ => false
    }

    /** The same test as HasReading, on suffixes. */
    predicate EndsWith(k: string, kj: Option<string>)
      ensures EndsWith(k, kj) <==>
                Strings.IsSuffix(k, kana) || (kanji.Some? && kj.Some? && Strings.IsSuffix(kj.value, kanji.value))
      ensures kj.None? ==> (EndsWith(k, kj) <==> Strings.IsSuffix(k, kana))
    {
      if Strings.IsSuffix(k, kana) then true
      else match (kanji, kj)
        case (Some(w), Some(s)) => Strings.IsSuffix(s, w)
        case _ => false
    }

    /**
     * The kana prefix before `k` and the kanji prefix before `kj`. Fails when
     * the kana lacks the suffix, when no kanji pattern is given, and when a
     * present kanji reading lacks the kanji suffix; a word without kanji
     * yields no kanji prefix.
     */
    function StripSuffix(k: string, kj: Option<string>): (r: Option<(string, Option<string>)>)
      ensures r.Some? <==>
                && Strings.IsSuffix(k, kana)
                && kj.Some?
                && (kanji.Some? ==> Strings.IsSuffix(kj.value, kanji.value))
      ensures r.Some? ==> r.value.0 + k == kana
      ensures r.Some? ==> (r.value.1.Some? <==> kanji.Some?)
      ensures r.Some? && r.value.1.Some? ==> r.value.1.value + kj.value == kanji.value
    {
      match Strings.StripStrSuffix(kana, k)
      case None => None
      case Some(kanaPrefix) =>
        match (kj, kanji)
        case (Some(_), None) => Some((kanaPrefix, None))
        case (Some(suffix), Some(reading)) =>
          (match Strings.StripStrSuffix(reading, suffix)
           case None => None
           case Some(kanjiPrefix) => Some((kanaPrefix, Some(kanjiPrefix))))
        case _ => None
    }

    /**
     * A fresh word (no inflections) whose readings are this word's prefixes
     * before the suffixes `k`/`kj` followed by the new suffixes `nk`/`nkj`.
     * The kanji reading survives only when the word has one and a new kanji
     * suffix is given. Fails exactly when StripSuffix fails.
     */
    function NewWithSuffixReplaced(k: string, kj: Option<string>, nk: string, nkj: Option<string>): (r: Option<Word>)
      ensures r.Some? <==> StripSuffix(k, kj).Some?
      ensures r.Some? ==> r.value.inflections == []
      ensures r.Some? ==> r.value.kana == kana[..|kana| - |k|] + nk
      ensures r.Some? ==> (r.value.kanji.Some? <==> kanji.Some? && nkj.Some?)
      ensures r.Some? && r.value.kanji.Some? ==>
                r.value.kanji.value == kanji.value[..|kanji.value| - |kj.value|] + nkj.value
    {
      match StripSuffix(k, kj)
      case None => None
      case Some((kanaPrefix, kanjiPrefix)) =>
        var newKanji :=
          match (kanjiPrefix, nkj)
          case (Some(p), Some(s)) => Some(p + s)
          case _ => None;
        Some(Word(kanaPrefix + nk, newKanji, []))
    }

    /** The kanji reading when there is one, otherwise the kana reading. */
    function GetReading(): (r: string)
      ensures kanji.Some? ==> r == kanji.value
      ensures kanji.None? ==> r == kana
    {
      match kanji
      case Some(k) => k
      case None => kana
    }

    /** The kana reading when asked for it, otherwise the preferred reading. */
    function TryKana(useKana: bool): (r: string)
      ensures useKana ==> r == kana
      ensures !useKana ==> r == GetReading()
    {
      if useKana then kana else GetReading()
    }

    /** The syllable of the last kana character, None for an empty kana reading. */
    function EndingSyllable(): (r: Option<Syllable>)
      ensures r.None? <==> |kana| == 0
      ensures r.Some? ==> r.value.GetChar() == kana[|kana| - 1]
    {
      if |kana| == 0 then None else Some(FromChar(kana[|kana| - 1]))
    }

    /**
     * Drops the last `n` characters of the kana reading and, independently,
     * of the kanji reading (all of a shorter one); inflections are kept.
     */
    function StripEnd(n: nat): (r: Word)
      ensures |r.kana| == if n <= |kana| then |kana| - n else 0
      ensures r.kana == kana[..|r.kana|]
      ensures r.kanji.Some? <==> kanji.Some?
      ensures r.kanji.Some? ==>
                && |r.kanji.value| == (if n <= |kanji.value| then |kanji.value| - n else 0)
                && r.kanji.value == kanji.value[..|r.kanji.value|]
      ensures r.inflections == inflections
    {
      var newKanji :=
        match kanji
        case Some(k) => Some(Strings.DropLast(k, n))
        case None => None;
      Word(Strings.DropLast(kana, n), newKanji, inflections)
    }

    /** Appends `s` to the kana reading and, when there is one, to the kanji reading. */
    function PushStr(s: string): (r: Word)
      ensures r.kana == kana + s
      ensures r.kanji == MapAppend(kanji, s)
      ensures r.inflections == inflections
    {
      Word(kana + s, MapAppend(kanji, s), inflections)
    }

    /** Appends the character `c` to both readings, as PushStr does. */
    function Push(c: char): (r: Word)
      ensures r == PushStr([c])
    {
      Word(kana + [c], MapAppend(kanji, [c]), inflections)
    }
  }

  /** A new word in dictionary form: no inflections yet. */
  function New(kana: string, kanji: Option<string>): (w: Word)
    ensures w.kana == kana && w.kanji == kanji && w.inflections == []
  {
    Word(kana, kanji, [])
  }

  /** Stripping what was just pushed gives the word back. */
  lemma PushStrThenStripEnd(w: Word, s: string)
    ensures w.PushStr(s).StripEnd(|s|) == w
  {
    var r := w.PushStr(s).StripEnd(|s|);
    assert r.kana == w.kana;
    if w.kanji.Some? {
      assert r.kanji.value == w.kanji.value;
    }
  }

  /** Pushing twice is pushing the concatenation. */
  lemma PushStrAppend(w: Word, s: string, t: string)
    ensures w.PushStr(s).PushStr(t) == w.PushStr(s + t)
  {
    assert w.kana + s + t == w.kana + (s + t);
    if w.kanji.Some? {
      assert w.kanji.value + s + t == w.kanji.value + (s + t);
    }
  }

  /** Stripping in two steps is stripping the sum. */
  lemma {:induction false} StripEndTwice(w: Word, m: nat, n: nat)
    ensures w.StripEnd(m).StripEnd(n) == w.StripEnd(m + n)
  {
    var a := w.StripEnd(m).StripEnd(n);
    var b := w.StripEnd(m + n);
    assert a.kana == b.kana;
    if w.kanji.Some? {
      assert a.kanji.value == b.kanji.value;
    }
  }

  /** Replacing a suffix and then replacing the new suffix back restores the readings. */
  lemma SuffixReplacedRoundTrip(w: Word, k: string, kj: string, nk: string, nkj: string)
    requires w.NewWithSuffixReplaced(k, Some(kj), nk, Some(nkj)).Some?
    ensures w.NewWithSuffixReplaced(k, Some(kj), nk, Some(nkj)).value
              .NewWithSuffixReplaced(nk, Some(nkj), k, Some(kj)) == Some(w.(inflections := []))
  {
    var v := w.NewWithSuffixReplaced(k, Some(kj), nk, Some(nkj)).value;
    assert Strings.IsSuffix(nk, v.kana);
    assert v.kanji.Some? ==> Strings.IsSuffix(nkj, v.kanji.value);
    var u := v.NewWithSuffixReplaced(nk, Some(nkj), k, Some(kj)).value;
    assert u.kana == w.kana;
    if w.kanji.Some? {
      assert u.kanji.value == w.kanji.value;
    }
  }
}
