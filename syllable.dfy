/**
 * Syllable classification (src/syllable.rs): a single character, looked up
 * first-match in the hiragana table to obtain its row and vowel class.
 */
module Syllables {
  import opened Wrappers
  import opened Tables
  import opened Vowels
  import opened Alphabet

  /** The row and vowel class of a classified syllable. */
  datatype Info = Info(row: Row, umlaut: Umlaut)

  /** The table read row by row, letter by letter: the order `get_info` searches in. */
  function Flatten(rows: seq<(Row, Letters)>): (es: seq<(char, Info)>)
    ensures |rows| > 0 ==> |es| >= |rows[0].1|
  {
    if rows == [] then [] else RowEntries(rows[0].0, rows[0].1) + Flatten(rows[1..])
  }

  function RowEntries(row: Row, letters: Letters): (es: seq<(char, Info)>)
    ensures |es| == |letters|
    ensures forall j :: 0 <= j < |letters| ==> es[j] == (letters[j].0, Info(row, letters[j].1))
  {
    if letters == [] then [] else [(letters[0].0, Info(row, letters[0].1))] + RowEntries(row, letters[1..])
  }

  /** The inner loop of `get_info`: the first letter of one row, from index `j` on, equal to `c`. */
  function FindLetter(letters: Letters, j: nat, c: char): (r: Option<Umlaut>)
    decreases |letters| - j
  {
    if j >= |letters| then None
    else if letters[j].0 == c then Some(letters[j].1)
    else FindLetter(letters, j + 1, c)
  }

  /** The outer loop of `get_info`: rows from index `i` on, the first one holding `c` wins. */
  function FindRow(rows: seq<(Row, Letters)>, i: nat, c: char): (r: Option<Info>)
    decreases |rows| - i
  {
    if i >= |rows| then None
    else match FindLetter(rows[i].1, 0, c)
      case Some(u) => Some(Info(rows[i].0, u))
      case None => FindRow(rows, i + 1, c)
  }

  /** The character `c` is listed in `rows`, at or after row `i`. */
  predicate ListedFrom(rows: seq<(Row, Letters)>, i: nat, c: char) {
    exists r, j :: i <= r < |rows| && 0 <= j < |rows[r].1| && rows[r].1[j].0 == c
  }

  /** The search of one row agrees with first-match search of its entries. */
  lemma {:induction false} FindLetterIsLookup(row: Row, letters: Letters, j: nat, c: char)
    requires j <= |letters|
    ensures (match FindLetter(letters, j, c)
             case Some(u) => Some(Info(row, u))
             case None => None) == Lookup(RowEntries(row, letters[j..]), c)
    decreases |letters| - j
  {
    if j < |letters| {
      var es := RowEntries(row, letters[j..]);
      assert letters[j..][1..] == letters[j + 1..];
      assert es[1..] == RowEntries(row, letters[j + 1..]);
      FindLetterIsLookup(row, letters, j + 1, c);
    }
  }

  /** Lookup in a concatenation: the front part is searched first. */
  lemma {:induction false} LookupAppend<V>(xs: seq<(char, V)>, ys: seq<(char, V)>, c: char)
    ensures Lookup(xs + ys, c) == if Lookup(xs, c).Some? then Lookup(xs, c) else Lookup(ys, c)
  {
    if xs != [] {
      assert (xs + ys)[1..] == xs[1..] + ys;
      LookupAppend(xs[1..], ys, c);
    } else {
      assert xs + ys == ys;
    }
  }

  /** The nested row-by-row search is first-match search of the flattened table. */
  lemma {:induction false} FindRowIsLookup(rows: seq<(Row, Letters)>, i: nat, c: char)
    requires i <= |rows|
    ensures FindRow(rows, i, c) == Lookup(Flatten(rows[i..]), c)
    decreases |rows| - i
  {
    if i < |rows| {
      assert rows[i..][1..] == rows[i + 1..];
      assert rows[i].1[0..] == rows[i].1;
      FindLetterIsLookup(rows[i].0, rows[i].1, 0, c);
      LookupAppend(RowEntries(rows[i].0, rows[i].1), Flatten(rows[i + 1..]), c);
      FindRowIsLookup(rows, i + 1, c);
    }
  }

  /** The search finds a character exactly when the table lists it. */
  lemma {:induction false} FindRowListed(rows: seq<(Row, Letters)>, i: nat, c: char)
    ensures FindRow(rows, i, c).Some? <==> ListedFrom(rows, i, c)
    decreases |rows| - i
  {
    if i < |rows| {
      FindRowListed(rows, i + 1, c);
      FindLetterListed(rows[i].1, 0, c);
      if ListedFrom(rows, i, c) && !ListedFrom(rows, i + 1, c) {
        var r, j :| i <= r < |rows| && 0 <= j < |rows[r].1| && rows[r].1[j].0 == c;
        assert r == i;
      }
    }
  }

  lemma {:induction false} FindLetterListed(letters: Letters, j: nat, c: char)
    ensures FindLetter(letters, j, c).Some? <==> exists k :: j <= k < |letters| && letters[k].0 == c
    decreases |letters| - j
  {
    if j < |letters| {
      FindLetterListed(letters, j + 1, c);
    }
  }

  /** The row's letters include `c`. */
  predicate Lists(letters: Letters, c: char) {
    exists j :: 0 <= j < |letters| && letters[j].0 == c
  }

  /** Rows that do not list `c` are passed over by the search. */
  lemma {:induction false} SkipRows(rows: seq<(Row, Letters)>, i: nat, k: nat, c: char)
    requires i <= k <= |rows|
    requires forall r :: i <= r < k ==> !Lists(rows[r].1, c)
    ensures FindRow(rows, i, c) == FindRow(rows, k, c)
    decreases k - i
  {
    if i < k {
      FindLetterListed(rows[i].1, 0, c);
      SkipRows(rows, i + 1, k, c);
    }
  }

  /** Whatever the search finds carries the row of a row it searched. */
  lemma {:induction false} FindRowYieldsListedRow(rows: seq<(Row, Letters)>, i: nat, c: char)
    ensures FindRow(rows, i, c).Some? ==>
              exists r :: i <= r < |rows| && rows[r].0 == FindRow(rows, i, c).value.row
    decreases |rows| - i
  {
    if i < |rows| && FindLetter(rows[i].1, 0, c).None? {
      FindRowYieldsListedRow(rows, i + 1, c);
    }
  }

  /** One single syllable of the kana alphabet. */
  datatype Syllable = Syllable(ch: char) {

    /** The row and vowel class of this character, searched row by row in the table. */
    function GetInfo(): Option<Info> {
      FindRow(HiraganaSyllables, 0, ch)
    }

    function GetChar(): char {
      ch
    }

    /** Whether the syllable is classified with vowel class `u`; an unclassified one ends with none. */
    predicate EndsWith(u: Umlaut) {
      match GetInfo()
      case Some(info) => info.umlaut == u
      case None => false
    }

    /**
     * `is_valid` as written: true exactly when the character is NOT listed in
     * the table, the opposite of what its documentation promises.
     */
    predicate IsValid()
      ensures IsValid() <==> !ListedFrom(HiraganaSyllables, 0, ch)
    {
      FindRowListed(HiraganaSyllables, 0, ch);
      GetInfo().None?
    }

    /** The documented meaning of `is_valid`: the character is a listed hiragana syllable. */
    predicate IsHiragana()
      ensures IsHiragana() <==> ListedFrom(HiraganaSyllables, 0, ch)
    {
      FindRowListed(HiraganaSyllables, 0, ch);
      GetInfo().Some?
    }
  }

  /**
   * `get_info` yields the row and vowel class of the first table entry equal
   * to the character, in table order, and None when the table has none.
   */
  lemma GetInfoIsFirstMatch(c: char)
    ensures Syllable(c).GetInfo() == Lookup(Flatten(HiraganaSyllables), c)
  {
    SearchIsLookup(HiraganaSyllables, c);
  }

  lemma SearchIsLookup(rows: seq<(Row, Letters)>, c: char)
    ensures FindRow(rows, 0, c) == Lookup(Flatten(rows), c)
  {
    FindRowIsLookup(rows, 0, c);
    assert rows[0..] == rows;
  }

  /** `From<char> for Syllable`. */
  function FromChar(c: char): (s: Syllable)
    ensures s.GetChar() == c
  {
    Syllable(c)
  }

  /** `From<&str> for Syllable`: the first character; the source panics on an empty string. */
  function FromStr(s: string): (r: Syllable)
    requires |s| > 0
    ensures r.GetChar() == s[0]
  {
    FromChar(s[0])
  }

  /**
   * `Syllable::to_dakuten`, restricted to the two morae the te rule voices.
   * The rest of the voicing table is not part of this model.
   */
  predicate IsTeMora(c: char) {
    c == 'て' || c == 'た'
  }

  function Voiced(c: char): (r: char)
    requires IsTeMora(c)
    ensures (c == 'て' ==> r == 'で') && (c == 'た' ==> r == 'だ')
  {
    if c == 'て' then 'で' else 'だ'
  }
}

/**
 * What the hiragana table, searched first-match, says about particular
 * syllables.
 */
module Classification {
  import opened Wrappers
  import opened Vowels
  import opened Alphabet
  import opened Syllables

  // One lemma per syllable: each search passes over the rows before the one holding it.
  lemma ClassifyKu()
    ensures Syllable('く').GetInfo() == Some(Info(K, U))
  {
    SkipRows(HiraganaSyllables, 0, 1, 'く');
  }

  lemma ClassifyGu()
    ensures Syllable('ぐ').GetInfo() == Some(Info(G, U))
  {
    SkipRows(HiraganaSyllables, 0, 2, 'ぐ');
  }

  lemma ClassifySu()
    ensures Syllable('す').GetInfo() == Some(Info(S, U))
  {
    SkipRows(HiraganaSyllables, 0, 3, 'す');
  }

  lemma ClassifyZu()
    ensures Syllable('ず').GetInfo() == Some(Info(Z, U))
  {
    SkipRows(HiraganaSyllables, 0, 4, 'ず');
  }

  lemma ClassifyTsu()
    ensures Syllable('つ').GetInfo() == Some(Info(T, U))
  {
    SkipRows(HiraganaSyllables, 0, 5, 'つ');
  }

  lemma ClassifyDu()
    ensures Syllable('づ').GetInfo() == Some(Info(D, U))
  {
    SkipRows(HiraganaSyllables, 0, 6, 'づ');
  }

  lemma ClassifyNu()
    ensures Syllable('ぬ').GetInfo() == Some(Info(N, U))
  {
    SkipRows(HiraganaSyllables, 0, 7, 'ぬ');
  }

  lemma ClassifyFu()
    ensures Syllable('ふ').GetInfo() == Some(Info(H, U))
  {
    SkipRows(HiraganaSyllables, 0, 8, 'ふ');
  }

  lemma ClassifyBu()
    ensures Syllable('ぶ').GetInfo() == Some(Info(B, U))
  {
    SkipRows(HiraganaSyllables, 0, 9, 'ぶ');
  }

  lemma ClassifyPu()
    ensures Syllable('ぷ').GetInfo() == Some(Info(P, U))
  {
    SkipRows(HiraganaSyllables, 0, 10, 'ぷ');
  }

  lemma ClassifyMu()
    ensures Syllable('む').GetInfo() == Some(Info(M, U))
  {
    SkipRows(HiraganaSyllables, 0, 11, 'む');
  }

  lemma ClassifyRu()
    ensures Syllable('る').GetInfo() == Some(Info(R, U))
  {
    SkipRows(HiraganaSyllables, 0, 12, 'る');
  }

  lemma ClassifyYu()
    ensures Syllable('ゆ').GetInfo() == Some(Info(Y, U))
  {
    SkipRows(HiraganaSyllables, 0, 13, 'ゆ');
  }

  lemma ClassifyWa()
    ensures Syllable('わ').GetInfo() == Some(Info(W, A))
  {
    SkipRows(HiraganaSyllables, 0, 14, 'わ');
  }

  lemma ClassifyWoAndN()
    ensures Syllable('を').GetInfo() == None
    ensures Syllable('ん').GetInfo() == None
  {
    SkipRows(HiraganaSyllables, 0, 15, 'を');
    SkipRows(HiraganaSyllables, 0, 15, 'ん');
  }

  /** The nine endings a godan verb can have are all classified as u-vowel syllables. */
  lemma GodanEndingsAreU()
    ensures Syllable('う').GetInfo() == Some(Info(Umlauts, U))
    ensures Syllable('く').GetInfo() == Some(Info(K, U))
    ensures Syllable('ぐ').GetInfo() == Some(Info(G, U))
    ensures Syllable('す').GetInfo() == Some(Info(S, U))
    ensures Syllable('つ').GetInfo() == Some(Info(T, U))
    ensures Syllable('ぬ').GetInfo() == Some(Info(N, U))
    ensures Syllable('ぶ').GetInfo() == Some(Info(B, U))
    ensures Syllable('む').GetInfo() == Some(Info(M, U))
    ensures Syllable('る').GetInfo() == Some(Info(R, U))
  {
    ClassifyKu(); ClassifyGu(); ClassifySu(); ClassifyTsu(); ClassifyNu();
    ClassifyBu(); ClassifyMu(); ClassifyRu();
  }

  /** ず, づ, ふ, ぷ and ゆ are u-vowel syllables too, although no stem table lists them. */
  lemma OtherUSyllables()
    ensures Syllable('ず').GetInfo() == Some(Info(Z, U))
    ensures Syllable('づ').GetInfo() == Some(Info(D, U))
    ensures Syllable('ふ').GetInfo() == Some(Info(H, U))
    ensures Syllable('ぷ').GetInfo() == Some(Info(P, U))
    ensures Syllable('ゆ').GetInfo() == Some(Info(Y, U))
  {
    ClassifyZu(); ClassifyDu(); ClassifyFu(); ClassifyPu(); ClassifyYu();
  }

  /**
   * The W row lists わ twice, so first-match search classifies it with the
   * a-vowel; を and ん are not listed at all.
   */
  lemma WaRowAndMissingLetters()
    ensures Syllable('わ').GetInfo() == Some(Info(W, A))
    ensures Syllable('を').GetInfo() == None
    ensures Syllable('ん').GetInfo() == None
  {
    ClassifyWa(); ClassifyWoAndN();
  }

  /** The documented examples: が is (G, A), and ぬ does not end with the a-vowel. */
  lemma DocumentedExamples()
    ensures Syllable('が').GetInfo() == Some(Info(G, A))
    ensures Syllable('が').EndsWith(A)
    ensures !Syllable('ぬ').EndsWith(A)
  {
    ClassifyNu();
    SkipRows(HiraganaSyllables, 0, 2, 'が');
  }

  /** No character is ever classified into the reserved ん row. */
  lemma NeverNSpecial(c: char)
    ensures Syllable(c).GetInfo().Some? ==> Syllable(c).GetInfo().value.row != NSpecial
  {
    FindRowYieldsListedRow(HiraganaSyllables, 0, c);
  }

  /** A character the table does not list ends with no vowel class at all. */
  lemma UnlistedEndsWithNothing(c: char, u: Umlaut)
    requires !ListedFrom(HiraganaSyllables, 0, c)
    ensures !Syllable(c).EndsWith(u)
  {
    FindRowListed(HiraganaSyllables, 0, c);
  }

  /** `is_valid` is inverted: a listed syllable is reported invalid, an unlisted one valid. */
  lemma IsValidIsInverted()
    ensures Syllable('あ').IsHiragana() && !Syllable('あ').IsValid()
    ensures !Syllable('を').IsHiragana() && Syllable('を').IsValid()
  {
    WaRowAndMissingLetters();
  }

  /** The corrected predicate holds of every syllable the table lists, and of nothing else. */
  lemma IsHiraganaOfTable(r: nat, j: nat)
    requires r < |HiraganaSyllables| && j < |HiraganaSyllables[r].1|
    ensures Syllable(HiraganaSyllables[r].1[j].0).IsHiragana()
  {
  }
}
