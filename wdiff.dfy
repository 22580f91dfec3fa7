/**
 * The `WordAnalyzer` of wdiff.py: the analyzer that came before the
 * `Word` class. Its words are set after construction. Four analyses
 * each fill a dictionary from word to weighted score and record their
 * names in `completedAnalysis`. The total then gathers, word by word,
 * the scores of the analyses that ran, and appends their sum.
 */
module Wdiff {
  import opened Builtins
  import opened Rules
  import opened Sounds
  import opened Tables

  datatype Analysis = LengthAnalysis | SilentLetterAnalysis | SameSoundAnalysis | AnagramsAnalysis

  /** The name an analysis records in `completedAnalysis`. */
  function Name(a: Analysis): string
  {
    match a
    case LengthAnalysis => "length_difficulty"
    case SilentLetterAnalysis => "silent_letter_difficulty"
    case SameSoundAnalysis => "same_sound_difficulty"
    case AnagramsAnalysis => "anagrams_difficulty"
  }

  /** The name the total records, which is not the name of any analysis. */
  const TotalDifficulty: string := "total difficulty"

  /** `difficultyWeight * count`, or the exception raised while counting. */
  function Weighted(count: Result<nat>, weight: int): (r: Result<int>)
    ensures r.Ok? <==> count.Ok?
    ensures r.Ok? ==> r.value == weight * count.value
  {
    match count
    case Ok(n) => Ok(weight * n)
    case Err(e) => Err(e)
  }

  // ---------------------------------------------------------------------
  // Anagrams

  /** The words of `all`, the word itself included, made of the same letters as `w`. */
  function AnagramCount(w: string, all: seq<string>): nat
  {
    if |all| == 0 then 0
    else AnagramCount(w, all[..|all| - 1]) + (if multiset(all[|all| - 1]) == multiset(w) then 1 else 0)
  }

  /** `count_anagrams`: one pass over the word list comparing letter counts. */
  method CountAnagrams(w: string, all: seq<string>) returns (n: nat)
    ensures n == AnagramCount(w, all)
  {
    n := 0;
    for i := 0 to |all|
      invariant n == AnagramCount(w, all[..i])
    {
      assert all[..i + 1][..i] == all[..i];
      if multiset(w) == multiset(all[i]) {
        n := n + 1;
      }
    }
    assert all[..|all|] == all;
  }

  /** A word of the list counts at least itself, and no count exceeds the list. */
  lemma {:induction false} AnagramCountBounds(w: string, all: seq<string>)
    ensures AnagramCount(w, all) <= |all|
    ensures w in all ==> AnagramCount(w, all) >= 1
  {
    if |all| > 0 {
      var init := all[..|all| - 1];
      AnagramCountBounds(w, init);
      if w in all && w !in init {
        assert all == init + [all[|all| - 1]];
        assert all[|all| - 1] == w;
      }
    }
  }

  /** Two words made of the same letters have the same number of anagrams. */
  lemma {:induction false} AnagramCountSameLetters(v: string, w: string, all: seq<string>)
    requires multiset(v) == multiset(w)
    ensures AnagramCount(v, all) == AnagramCount(w, all)
  {
    if |all| > 0 {
      AnagramCountSameLetters(v, w, all[..|all| - 1]);
    }
  }

  /** The anagram index: a word that only forms itself scores 0, otherwise count times weight. */
  function AnagramIndex(count: nat, weight: int): int
  {
    if count == 1 then 0 else count * weight
  }

  /** With a positive weight, a listed word scores 0 exactly when it is its own only anagram. */
  lemma AnagramIndexZero(w: string, all: seq<string>, weight: int)
    requires w in all && weight > 0
    ensures AnagramIndex(AnagramCount(w, all), weight) == 0 <==> AnagramCount(w, all) == 1
    ensures AnagramIndex(AnagramCount(w, all), weight) >= 0
  {
    AnagramCountBounds(w, all);
  }

  // ---------------------------------------------------------------------
  // Scores

  /** The score one analysis gives one word of the list `all`. */
  function Index(a: Analysis, weight: int, all: seq<string>, w: string): Result<int>
  {
    match a
    case LengthAnalysis => Ok(|w| * weight)
    case SilentLetterAnalysis => Weighted(SilentLetterTotal(w), weight)
    case SameSoundAnalysis => Weighted(SameSoundTotal(w), weight)
    case AnagramsAnalysis => Ok(AnagramIndex(AnagramCount(w, all), weight))
  }

  function Scorer(a: Analysis, weight: int, all: seq<string>): string -> Result<int>
  {
    w => Index(a, weight, all, w)
  }

  /** Only the silent-letter and same-sound counts can raise, and only `IndexError`. */
  lemma IndexErrors(a: Analysis, weight: int, all: seq<string>, w: string)
    ensures (a == LengthAnalysis || a == AnagramsAnalysis) ==> Index(a, weight, all, w).Ok?
    ensures Index(a, weight, all, w).Err? ==> Index(a, weight, all, w).error == IndexError
  {
    if a == SilentLetterAnalysis {
      RuleErrors(USilentWrapped, w, 0);
    } else if a == SameSoundAnalysis {
      RuleErrors(CBeforeEI, w, 0);
      RuleErrors(QBeforeUEI, w, 0);
    }
  }

  /** The only exception a positional rule raises is `IndexError`. */
  lemma {:induction false} RuleErrors(r: Rule, w: string, i: nat)
    ensures RuleCountFrom(r, w, i).Err? ==> RuleCountFrom(r, w, i).error == IndexError
    decreases |w| - i
  {
    if i < |w| {
      RuleErrors(r, w, i + 1);
    }
  }

  /** The score of one word, computed by the analyzer's own counting methods. */
  method Score(a: Analysis, weight: int, all: seq<string>, w: string) returns (r: Result<int>)
    ensures r == Index(a, weight, all, w)
  {
    match a
    case LengthAnalysis =>
      r := Ok(|w| * weight);
    case SilentLetterAnalysis =>
      var n := TotalSilentLetters(w);
      r := Weighted(n, weight);
    case SameSoundAnalysis =>
      var n := TotalSameSoundLetters(w);
      r := Weighted(n, weight);
    case AnagramsAnalysis =>
      var count := CountAnagrams(w, all);
      r := Ok(AnagramIndex(count, weight));
  }

  /** The loop of every `determine_*_difficulty`: one score per word, stopping at the first exception. */
  method Tabulate(a: Analysis, weight: int, ws: seq<string>) returns (f: Filled<int>)
    ensures f == Fill(Scorer(a, weight, ws), ws)
  {
    var table := map[];
    for i := 0 to |ws|
      invariant Fill(Scorer(a, weight, ws), ws[..i]) == Filled(table, None)
    {
      var s := Score(a, weight, ws, ws[i]);
      FillNext(Scorer(a, weight, ws), ws, i);
      if s.Err? {
        FillStops(Scorer(a, weight, ws), ws, i + 1);
        return Filled(table, Some(s.error));
      }
      table := table[ws[i] := s.value];
    }
    assert ws[..|ws|] == ws;
    f := Filled(table, None);
  }

  // ---------------------------------------------------------------------
  // Integration

  /** The four dictionaries, `None` where the attribute was never assigned. */
  datatype InfoSet = InfoSet(
    length: Option<map<string, int>>,
    silentLetter: Option<map<string, int>>,
    sameSound: Option<map<string, int>>,
    anagrams: Option<map<string, int>>)

  /** The dictionaries with the one of analysis `a` replaced. */
  function WithInfo(infos: InfoSet, a: Analysis, info: Option<map<string, int>>): InfoSet
  {
    match a
    case LengthAnalysis => infos.(length := info)
    case SilentLetterAnalysis => infos.(silentLetter := info)
    case SameSoundAnalysis => infos.(sameSound := info)
    case AnagramsAnalysis => infos.(anagrams := info)
  }

  function InfoOf(infos: InfoSet, a: Analysis): Option<map<string, int>>
  {
    match a
    case LengthAnalysis => infos.length
    case SilentLetterAnalysis => infos.silentLetter
    case SameSoundAnalysis => infos.sameSound
    case AnagramsAnalysis => infos.anagrams
  }

  /**
   * One analysis' entry in a word's row: nothing if the analysis has not
   * run, `AttributeError` without its dictionary, `KeyError` without the word.
   */
  function Cell(completed: seq<string>, infos: InfoSet, a: Analysis, w: string): Result<seq<int>>
  {
    var info := InfoOf(infos, a);
    if Name(a) !in completed then Ok([])
    else if info.None? then Err(AttributeError)
    else if w !in info.value then Err(KeyError)
    else Ok([info.value[w]])
  }

  /** Two parts of a row, the first exception winning. */
  function Join(x: Result<seq<int>>, y: Result<seq<int>>): Result<seq<int>>
  {
    match x
    case Err(e) => Err(e)
    case Ok(xs) => match y
      case Err(e) => Err(e)
      case Ok(ys) => Ok(xs + ys)
  }

  /** A word's row: the entries of the completed analyses in the fixed order length, silent, same sound, anagrams. */
  function Row(completed: seq<string>, infos: InfoSet, w: string): Result<seq<int>>
  {
    Join(Join(Join(Cell(completed, infos, LengthAnalysis, w), Cell(completed, infos, SilentLetterAnalysis, w)),
      Cell(completed, infos, SameSoundAnalysis, w)), Cell(completed, infos, AnagramsAnalysis, w))
  }

  function RowScorer(completed: seq<string>, infos: InfoSet): string -> Result<seq<int>>
  {
    w => Row(completed, infos, w)
  }

  /** What `integrate_word_information` returns or raises. */
  function Integration(completed: seq<string>, infos: InfoSet, words: Option<seq<string>>): Result<map<string, seq<int>>>
  {
    if words.None? then Err(AttributeError)
    else
      var f := Fill(RowScorer(completed, infos), words.value);
      if f.error.Some? then Err(f.error.value) else Ok(f.table)
  }

  /** The dictionary an analysis leaves when it ran over `ws` with the given weight. */
  predicate RanOver(infos: InfoSet, a: Analysis, weight: int, ws: seq<string>)
  {
    InfoOf(infos, a) == Some(Fill(Scorer(a, weight, ws), ws).table)
  }

  /** The four analyses in the order of a row. */
  const Analyses: seq<Analysis> := [LengthAnalysis, SilentLetterAnalysis, SameSoundAnalysis, AnagramsAnalysis]

  /** The length and anagram analyses never raise. */
  lemma AlwaysScored(a: Analysis, weight: int, ws: seq<string>)
    requires a == LengthAnalysis || a == AnagramsAnalysis
    ensures Fill(Scorer(a, weight, ws), ws).error.None?
  {
    var score := Scorer(a, weight, ws);
    forall i | 0 <= i < |ws| ensures score(ws[i]).Ok? {
      IndexErrors(a, weight, ws, ws[i]);
    }
    FillMeaning(score, ws);
  }

  /** A dictionary filled without an exception holds every word of the list with its score. */
  lemma ScoredAll(infos: InfoSet, a: Analysis, weight: int, ws: seq<string>)
    requires RanOver(infos, a, weight, ws) && Fill(Scorer(a, weight, ws), ws).error.None?
    ensures forall w :: w in ws ==> (w in InfoOf(infos, a).value && Ok(InfoOf(infos, a).value[w]) == Index(a, weight, ws, w))
  {
    var score := Scorer(a, weight, ws);
    FillMeaning(score, ws);
    forall w | w in ws ensures w in InfoOf(infos, a).value {
      var i :| 0 <= i < |ws| && ws[i] == w;
    }
  }

  /** A word present in the four dictionaries of completed analyses gets its four entries, in order. */
  lemma RowOfPresent(completed: seq<string>, infos: InfoSet, w: string)
    requires forall k :: 0 <= k < 4 ==> Name(Analyses[k]) in completed
    requires forall k :: 0 <= k < 4 ==> InfoOf(infos, Analyses[k]).Some? && w in InfoOf(infos, Analyses[k]).value
    ensures Row(completed, infos, w).Ok? && |Row(completed, infos, w).value| == 4
    ensures forall k :: 0 <= k < 4 ==> Row(completed, infos, w).value[k] == InfoOf(infos, Analyses[k]).value[w]
  {
    var x := seq(4, k requires 0 <= k < 4 => InfoOf(infos, Analyses[k]).value[w]);
    assert Name(Analyses[0]) in completed && w in InfoOf(infos, Analyses[0]).value;
    assert Name(Analyses[1]) in completed && w in InfoOf(infos, Analyses[1]).value;
    assert Name(Analyses[2]) in completed && w in InfoOf(infos, Analyses[2]).value;
    assert Name(Analyses[3]) in completed && w in InfoOf(infos, Analyses[3]).value;
    assert Cell(completed, infos, LengthAnalysis, w) == Ok([x[0]]);
    assert Cell(completed, infos, SilentLetterAnalysis, w) == Ok([x[1]]);
    assert Cell(completed, infos, SameSoundAnalysis, w) == Ok([x[2]]);
    assert Cell(completed, infos, AnagramsAnalysis, w) == Ok([x[3]]);
    assert [x[0]] + [x[1]] + [x[2]] + [x[3]] == x;
  }

  /**
   * After the four analyses have run over the current words without an
   * exception, integration succeeds and each word's row holds its four
   * scores, in the order length, silent letters, same sound, anagrams.
   */
  lemma CompleteRows(completed: seq<string>, infos: InfoSet, ws: seq<string>, weights: seq<int>)
    requires |weights| == 4
    requires forall k :: 0 <= k < 4 ==> Name(Analyses[k]) in completed
    requires forall k :: 0 <= k < 4 ==> RanOver(infos, Analyses[k], weights[k], ws)
    requires Fill(Scorer(SilentLetterAnalysis, weights[1], ws), ws).error.None?
    requires Fill(Scorer(SameSoundAnalysis, weights[2], ws), ws).error.None?
    ensures Integration(completed, infos, Some(ws)).Ok?
    ensures forall w :: w in ws ==> (w in Integration(completed, infos, Some(ws)).value &&
      |Integration(completed, infos, Some(ws)).value[w]| == 4 &&
      forall k :: 0 <= k < 4 ==> Ok(Integration(completed, infos, Some(ws)).value[w][k]) == Index(Analyses[k], weights[k], ws, w))
  {
    forall k | 0 <= k < 4
      ensures forall w :: w in ws ==> (InfoOf(infos, Analyses[k]).Some? && w in InfoOf(infos, Analyses[k]).value &&
        Ok(InfoOf(infos, Analyses[k]).value[w]) == Index(Analyses[k], weights[k], ws, w))
    {
      if k == 0 || k == 3 {
        AlwaysScored(Analyses[k], weights[k], ws);
      }
      ScoredAll(infos, Analyses[k], weights[k], ws);
    }
    IntegrationOfScored(completed, infos, ws, weights);
  }

  lemma IntegrationOfScored(completed: seq<string>, infos: InfoSet, ws: seq<string>, weights: seq<int>)
    requires |weights| == 4
    requires forall k :: 0 <= k < 4 ==> Name(Analyses[k]) in completed
    requires forall k, w :: 0 <= k < 4 && w in ws ==> (InfoOf(infos, Analyses[k]).Some? && w in InfoOf(infos, Analyses[k]).value &&
      Ok(InfoOf(infos, Analyses[k]).value[w]) == Index(Analyses[k], weights[k], ws, w))
    ensures Integration(completed, infos, Some(ws)).Ok?
    ensures forall w :: w in ws ==> (w in Integration(completed, infos, Some(ws)).value &&
      |Integration(completed, infos, Some(ws)).value[w]| == 4 &&
      forall k :: 0 <= k < 4 ==> Ok(Integration(completed, infos, Some(ws)).value[w][k]) == Index(Analyses[k], weights[k], ws, w))
  {
    var rows := RowScorer(completed, infos);
    forall i | 0 <= i < |ws|
      ensures rows(ws[i]).Ok? && |rows(ws[i]).value| == 4
      ensures forall k :: 0 <= k < 4 ==> Ok(rows(ws[i]).value[k]) == Index(Analyses[k], weights[k], ws, ws[i])
    {
      assert ws[i] in ws;
      RowOfPresent(completed, infos, ws[i]);
    }
    FillMeaning(rows, ws);
    forall w | w in ws ensures w in Fill(rows, ws).table {
      var i :| 0 <= i < |ws| && ws[i] == w;
    }
  }

  /**
   * An analysis that raised part-way leaves a dictionary without the
   * word it failed on, so a later integration raises as well.
   */
  lemma FailedAnalysisBreaksIntegration(completed: seq<string>, infos: InfoSet, a: Analysis, weight: int, ws: seq<string>)
    requires Name(a) in completed && RanOver(infos, a, weight, ws)
    requires Fill(Scorer(a, weight, ws), ws).error.Some?
    ensures Integration(completed, infos, Some(ws)).Err?
  {
    var score := Scorer(a, weight, ws);
    FillMeaning(score, ws);
    var k :| 0 <= k < |ws| && score(ws[k]) == Err(Fill(score, ws).error.value);
    var w := ws[k];
    assert Cell(completed, infos, a, w) == Err(KeyError);
    assert Row(completed, infos, w).Err?;
    FillMeaning(RowScorer(completed, infos), ws);
  }

  // ---------------------------------------------------------------------
  // The analyzer

  class WordAnalyzer {
    var completedAnalysis: seq<string>
    var words: Option<seq<string>>
    var lengthInfo: Option<map<string, int>>
    var silentLetterInfo: Option<map<string, int>>
    var sameSoundLetterInfo: Option<map<string, int>>
    var anagramsInfo: Option<map<string, int>>
    var wordInfo: Option<map<string, seq<int>>>

    function Infos(): InfoSet
      reads this
    {
      InfoSet(lengthInfo, silentLetterInfo, sameSoundLetterInfo, anagramsInfo)
    }

    /** A new analyzer has run nothing and has no words yet. */
    constructor ()
      ensures completedAnalysis == [] && words.None? && wordInfo.None?
      ensures Infos() == InfoSet(None, None, None, None)
    {
      completedAnalysis := [];
      words := None;
      lengthInfo := None;
      silentLetterInfo := None;
      sameSoundLetterInfo := None;
      anagramsInfo := None;
      wordInfo := None;
    }

    /** `set_words`: replaces the word list and nothing else. */
    method SetWords(ws: seq<string>)
      modifies this
      ensures words == Some(ws)
      ensures completedAnalysis == old(completedAnalysis) && Infos() == old(Infos()) && wordInfo == old(wordInfo)
    {
      words := Some(ws);
    }

    /**
     * The body shared by the four `determine_*_difficulty` methods: record
     * the name, start an empty dictionary, then fill it. Without words
     * the loop raises `AttributeError`; a score that raises stops it.
     */
    method Determine(a: Analysis, weight: int) returns (r: Result<()>)
      modifies this
      ensures completedAnalysis == old(completedAnalysis) + [Name(a)]
      ensures words == old(words) && wordInfo == old(wordInfo)
      ensures Infos() == WithInfo(old(Infos()), a, InfoOf(Infos(), a))
      ensures words.None? ==> InfoOf(Infos(), a) == Some(map[]) && r == Err(AttributeError)
      ensures words.Some? ==> (RanOver(Infos(), a, weight, words.value) &&
        r == Outcome(Fill(Scorer(a, weight, words.value), words.value)))
    {
      completedAnalysis := completedAnalysis + [Name(a)];
      var table: map<string, int> := map[];
      r := Err(AttributeError);
      if words.Some? {
        var f := Tabulate(a, weight, words.value);
        table := f.table;
        r := Outcome(f);
      }
      match a
      case LengthAnalysis => lengthInfo := Some(table);
      case SilentLetterAnalysis => silentLetterInfo := Some(table);
      case SameSoundAnalysis => sameSoundLetterInfo := Some(table);
      case AnagramsAnalysis => anagramsInfo := Some(table);
    }

    /** `determine_length_difficulty`: every word scores its length times the weight. */
    method DetermineLengthDifficulty(difficultyWeight: int := 3) returns (r: Result<()>)
      modifies this
      ensures completedAnalysis == old(completedAnalysis) + [Name(LengthAnalysis)]
      ensures words == old(words) && wordInfo == old(wordInfo)
      ensures Infos() == WithInfo(old(Infos()), LengthAnalysis, lengthInfo)
      ensures r == (if words.None? then Err(AttributeError) else Ok(()))
      ensures words.Some? ==> lengthInfo.Some? && lengthInfo.value.Keys == set w | w in words.value
      ensures words.Some? ==> forall w :: w in lengthInfo.value ==> lengthInfo.value[w] == |w| * difficultyWeight
    {
      r := Determine(LengthAnalysis, difficultyWeight);
      if words.Some? {
        var score := Scorer(LengthAnalysis, difficultyWeight, words.value);
        forall i | 0 <= i < |words.value| ensures score(words.value[i]).Ok? {
          IndexErrors(LengthAnalysis, difficultyWeight, words.value, words.value[i]);
        }
        FillMeaning(score, words.value);
      }
    }

    /** `determine_silent_letter_difficulty`: weight times the silent h's and u's. */
    method DetermineSilentLetterDifficulty(difficultyWeight: int := 2) returns (r: Result<()>)
      modifies this
      ensures completedAnalysis == old(completedAnalysis) + [Name(SilentLetterAnalysis)]
      ensures words == old(words) && wordInfo == old(wordInfo)
      ensures Infos() == WithInfo(old(Infos()), SilentLetterAnalysis, silentLetterInfo)
      ensures words.None? ==> silentLetterInfo == Some(map[]) && r == Err(AttributeError)
      ensures words.Some? ==> RanOver(Infos(), SilentLetterAnalysis, difficultyWeight, words.value)
      ensures words.Some? ==> r == Outcome(Fill(Scorer(SilentLetterAnalysis, difficultyWeight, words.value), words.value))
    {
      r := Determine(SilentLetterAnalysis, difficultyWeight);
    }

    /** `determine_same_sound_letter_difficulty`: weight times the swappable pairs. */
    method DetermineSameSoundLetterDifficulty(difficultyWeight: int := 2) returns (r: Result<()>)
      modifies this
      ensures completedAnalysis == old(completedAnalysis) + [Name(SameSoundAnalysis)]
      ensures words == old(words) && wordInfo == old(wordInfo)
      ensures Infos() == WithInfo(old(Infos()), SameSoundAnalysis, sameSoundLetterInfo)
      ensures words.None? ==> sameSoundLetterInfo == Some(map[]) && r == Err(AttributeError)
      ensures words.Some? ==> RanOver(Infos(), SameSoundAnalysis, difficultyWeight, words.value)
      ensures words.Some? ==> r == Outcome(Fill(Scorer(SameSoundAnalysis, difficultyWeight, words.value), words.value))
    {
      r := Determine(SameSoundAnalysis, difficultyWeight);
    }

    /** `determine_anagrams_difficulty`: the anagram index of every word against the whole list. */
    method DetermineAnagramsDifficulty(difficultyWeight: int := 1) returns (r: Result<()>)
      modifies this
      ensures completedAnalysis == old(completedAnalysis) + [Name(AnagramsAnalysis)]
      ensures words == old(words) && wordInfo == old(wordInfo)
      ensures Infos() == WithInfo(old(Infos()), AnagramsAnalysis, anagramsInfo)
      ensures r == (if words.None? then Err(AttributeError) else Ok(()))
      ensures words.Some? ==> anagramsInfo.Some? && anagramsInfo.value.Keys == set w | w in words.value
      ensures words.Some? ==> forall w :: w in anagramsInfo.value ==>
        anagramsInfo.value[w] == AnagramIndex(AnagramCount(w, words.value), difficultyWeight)
    {
      r := Determine(AnagramsAnalysis, difficultyWeight);
      if words.Some? {
        var score := Scorer(AnagramsAnalysis, difficultyWeight, words.value);
        forall i | 0 <= i < |words.value| ensures score(words.value[i]).Ok? {
          IndexErrors(AnagramsAnalysis, difficultyWeight, words.value, words.value[i]);
        }
        FillMeaning(score, words.value);
      }
    }

    /** Appends a word's entry for one analysis, if that analysis has run. */
    method AppendEntry(row: seq<int>, a: Analysis, w: string) returns (r: Result<seq<int>>)
      ensures r == Join(Ok(row), Cell(completedAnalysis, Infos(), a, w))
    {
      if Name(a) !in completedAnalysis {
        assert row + [] == row;
        return Ok(row);
      }
      var info := InfoOf(Infos(), a);
      if info.None? {
        return Err(AttributeError);
      }
      if w !in info.value {
        return Err(KeyError);
      }
      return Ok(row + [info.value[w]]);
    }

    /** `integrate_word_information`: one row per word, built without changing the analyzer. */
    method IntegrateWordInformation() returns (r: Result<map<string, seq<int>>>)
      ensures r == Integration(completedAnalysis, Infos(), words)
    {
      if words.None? {
        return Err(AttributeError);
      }
      var ws := words.value;
      var rows := RowScorer(completedAnalysis, Infos());
      var wordInfo: map<string, seq<int>> := map[];
      for i := 0 to |ws|
        invariant Fill(rows, ws[..i]) == Filled(wordInfo, None)
      {
        var w := ws[i];
        FillNext(rows, ws, i);
        ghost var completed, infos := completedAnalysis, Infos();
        ghost var cells := seq(4, k requires 0 <= k < 4 => Cell(completed, infos, Analyses[k], w));
        var row := AppendEntry([], LengthAnalysis, w);
        assert row == cells[0] by {
          if cells[0].Ok? {
            assert [] + cells[0].value == cells[0].value;
          }
        }
        if row.Ok? {
          row := AppendEntry(row.value, SilentLetterAnalysis, w);
        }
        assert row == Join(cells[0], cells[1]);
        if row.Ok? {
          row := AppendEntry(row.value, SameSoundAnalysis, w);
        }
        assert row == Join(Join(cells[0], cells[1]), cells[2]);
        if row.Ok? {
          row := AppendEntry(row.value, AnagramsAnalysis, w);
        }
        assert rows(w) == row;
        if row.Err? {
          FillStops(rows, ws, i + 1);
          return Err(row.error);
        }
        wordInfo := wordInfo[w := row.value];
      }
      assert ws[..|ws|] == ws;
      r := Ok(wordInfo);
    }

    /**
     * `determine_total_difficulty_index`: records its name, integrates,
     * and appends to every row the sum of its entries. When integration
     * raises, the previous `wordInfo` stays.
     */
    method DetermineTotalDifficultyIndex() returns (r: Result<()>)
      modifies this
      ensures completedAnalysis == old(completedAnalysis) + [TotalDifficulty]
      ensures words == old(words) && Infos() == old(Infos())
      ensures var integrated := Integration(old(completedAnalysis), old(Infos()), old(words));
        && (integrated.Err? ==> r == Err(integrated.error) && wordInfo == old(wordInfo))
        && (integrated.Ok? ==> r == Ok(()) && wordInfo == Some(WithTotals(integrated.value)))
    {
      ghost var before := completedAnalysis;
      completedAnalysis := completedAnalysis + [TotalDifficulty];
      if words.Some? {
        forall w | w in words.value
          ensures RowScorer(completedAnalysis, Infos())(w) == RowScorer(before, Infos())(w)
        {
          assert forall a :: Name(a) in completedAnalysis <==> Name(a) in before;
        }
        FillSameScores(RowScorer(completedAnalysis, Infos()), RowScorer(before, Infos()), words.value);
      }
      var integrated := IntegrateWordInformation();
      if integrated.Err? {
        return Err(integrated.error);
      }
      wordInfo := Some(WithTotals(integrated.value));
      r := Ok(());
    }

    /** The getters return the dictionary, or raise `AttributeError` if it was never assigned. */
    function GetLengthInfo(): Result<map<string, int>>
      reads this
    {
      Attribute(lengthInfo)
    }

    function GetSilentLetterInfo(): Result<map<string, int>>
      reads this
    {
      Attribute(silentLetterInfo)
    }

    function GetSameSoundLetterInfo(): Result<map<string, int>>
      reads this
    {
      Attribute(sameSoundLetterInfo)
    }

    function GetAnagramsInfo(): Result<map<string, int>>
      reads this
    {
      Attribute(anagramsInfo)
    }

    function GetWordDifficulty(): Result<map<string, seq<int>>>
      reads this
    {
      Attribute(wordInfo)
    }
  }
}
