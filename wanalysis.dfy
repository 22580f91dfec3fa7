/**
 * The `WordAnalyzer` of wanalysis.py, the oldest of the dictionary-based
 * analyzers. Its word counters are the same code as in wdiff.py (the
 * `Sounds` module). The differences from the wdiff.py class: fixed
 * weights 3, 2, 2 and 1; no record of completed analyses;
 * `integrate_word_information` always reads all four dictionaries and
 * then adds the totals itself; and the anagram count looks words up in
 * a list of anagram lines.
 */
module WAnalysis {
  import opened Builtins
  import opened Sounds
  import opened Tables
  import opened Wdiff

  /**
   * `analysisDimensions`. A missing comma makes Python join
   * "anagrams" and "difficulty index" into one string, so the tuple has
   * four entries.
   */
  const AnalysisDimensions: seq<string> := ["length", "silent letters", "same sound letters", "anagramsdifficulty index"]

  /** The names of the four analyses, all of which integration reads. */
  const AllAnalyses: seq<string> := [Name(LengthAnalysis), Name(SilentLetterAnalysis), Name(SameSoundAnalysis), Name(AnagramsAnalysis)]

  // ---------------------------------------------------------------------
  // Anagram lines

  /** The length of the last line of `lines` that holds `w`, or 0 when no line does. */
  function LastLineWith(w: string, lines: seq<seq<string>>): nat
  {
    if |lines| == 0 then 0
    else if w in lines[|lines| - 1] then |lines[|lines| - 1]|
    else LastLineWith(w, lines[..|lines| - 1])
  }

  /** `in_anagrams_list`: every line holding the word overwrites the count with the line's length. */
  method InAnagramsList(w: string, lines: seq<seq<string>>) returns (n: nat)
    ensures n == LastLineWith(w, lines)
  {
    n := 0;
    for i := 0 to |lines|
      invariant n == LastLineWith(w, lines[..i])
    {
      assert lines[..i + 1][..i] == lines[..i];
      if w in lines[i] {
        n := |lines[i]|;
      }
    }
    assert lines[..|lines|] == lines;
  }

  /**
   * The count is 0 exactly when no line holds the word; otherwise it is
   * the length of a line holding it after which no line holds it.
   */
  lemma {:induction false} LastLineWithMeaning(w: string, lines: seq<seq<string>>)
    ensures LastLineWith(w, lines) == 0 <==> forall k :: 0 <= k < |lines| ==> w !in lines[k]
    ensures LastLineWith(w, lines) > 0 ==>
      exists k :: 0 <= k < |lines| && w in lines[k] && LastLineWith(w, lines) == |lines[k]| &&
        forall j :: k < j < |lines| ==> w !in lines[j]
  {
    if |lines| > 0 {
      var init := lines[..|lines| - 1];
      LastLineWithMeaning(w, init);
      assert forall k :: 0 <= k < |init| ==> init[k] == lines[k];
      if w !in lines[|lines| - 1] && LastLineWith(w, init) > 0 {
        var k :| 0 <= k < |init| && w in init[k] && LastLineWith(w, init) == |init[k]| &&
          forall j :: k < j < |init| ==> w !in init[j];
        assert forall j :: k < j < |lines| ==> w !in lines[j];
      }
    }
  }

  function AnagramScorer(lines: seq<seq<string>>): string -> Result<int>
  {
    w => Ok(LastLineWith(w, lines))
  }

  /** The loop of `check_anagrams`, with weight 1. */
  method TabulateAnagrams(ws: seq<string>, lines: seq<seq<string>>) returns (table: map<string, int>)
    ensures Fill(AnagramScorer(lines), ws) == Filled(table, None)
  {
    table := map[];
    for i := 0 to |ws|
      invariant Fill(AnagramScorer(lines), ws[..i]) == Filled(table, None)
    {
      var count := InAnagramsList(ws[i], lines);
      FillNext(AnagramScorer(lines), ws, i);
      table := table[ws[i] := count * 1];
    }
    assert ws[..|ws|] == ws;
  }

  class WordAnalyzer {
    const words: seq<string>
    const analysisDimensions: seq<string>
    var lengthInfo: Option<map<string, int>>
    var silentLetterInfo: Option<map<string, int>>
    var sameSoundLetterInfo: Option<map<string, int>>
    var anagramsInfo: Option<map<string, int>>
    var wordInfo: Option<map<string, seq<int>>>

    function Infos(): InfoSet
      reads this
    {
      InfoSet(lengthInfo, silentLetterInfo, sameSoundLetterInfo, anagramsInfo)
    }

    /** A new analyzer holds its words and its dimension names, and no dictionary yet. */
    constructor (ws: seq<string>)
      ensures words == ws && analysisDimensions == AnalysisDimensions
      ensures Infos() == InfoSet(None, None, None, None) && wordInfo.None?
    {
      words := ws;
      analysisDimensions := AnalysisDimensions;
      lengthInfo := None;
      silentLetterInfo := None;
      sameSoundLetterInfo := None;
      anagramsInfo := None;
      wordInfo := None;
    }

    /** `check_length`: three points per letter, for every word. */
    method CheckLength()
      modifies this
      ensures Infos() == WithInfo(old(Infos()), LengthAnalysis, lengthInfo) && wordInfo == old(wordInfo)
      ensures RanOver(Infos(), LengthAnalysis, 3, words)
      ensures lengthInfo.Some? && lengthInfo.value.Keys == set w | w in words
      ensures forall w :: w in lengthInfo.value ==> lengthInfo.value[w] == 3 * |w|
    {
      var f := Tabulate(LengthAnalysis, 3, words);
      lengthInfo := Some(f.table);
      AlwaysScored(LengthAnalysis, 3, words);
      FillMeaning(Scorer(LengthAnalysis, 3, words), words);
    }

    /** `check_silent_letters`: two points per silent letter; a raising count stops the loop. */
    method CheckSilentLetters() returns (r: Result<()>)
      modifies this
      ensures Infos() == WithInfo(old(Infos()), SilentLetterAnalysis, silentLetterInfo) && wordInfo == old(wordInfo)
      ensures RanOver(Infos(), SilentLetterAnalysis, 2, words)
      ensures r == Outcome(Fill(Scorer(SilentLetterAnalysis, 2, words), words))
    {
      var f := Tabulate(SilentLetterAnalysis, 2, words);
      silentLetterInfo := Some(f.table);
      r := Outcome(f);
    }

    /** `check_same_sound_letter`: two points per swappable pair; a raising count stops the loop. */
    method CheckSameSoundLetter() returns (r: Result<()>)
      modifies this
      ensures Infos() == WithInfo(old(Infos()), SameSoundAnalysis, sameSoundLetterInfo) && wordInfo == old(wordInfo)
      ensures RanOver(Infos(), SameSoundAnalysis, 2, words)
      ensures r == Outcome(Fill(Scorer(SameSoundAnalysis, 2, words), words))
    {
      var f := Tabulate(SameSoundAnalysis, 2, words);
      sameSoundLetterInfo := Some(f.table);
      r := Outcome(f);
    }

    /**
     * `check_anagrams`. The anagram list it reads is a module-level name
     * that wanalysis.py never defines: `None` stands for that case, where
     * the first word raises `NameError`.
     */
    method CheckAnagrams(anagramList: Option<seq<seq<string>>>) returns (r: Result<()>)
      modifies this
      ensures Infos() == WithInfo(old(Infos()), AnagramsAnalysis, anagramsInfo) && wordInfo == old(wordInfo)
      ensures anagramList.None? ==> anagramsInfo == Some(map[]) && r == (if |words| == 0 then Ok(()) else Err(NameError))
      ensures anagramList.Some? ==> r == Ok(()) && anagramsInfo.Some? && anagramsInfo.value.Keys == set w | w in words
      ensures anagramList.Some? ==> forall w :: w in anagramsInfo.value ==> anagramsInfo.value[w] == LastLineWith(w, anagramList.value)
    {
      if anagramList.None? {
        anagramsInfo := Some(map[]);
        r := if |words| == 0 then Ok(()) else Err(NameError);
        return;
      }
      var table := TabulateAnagrams(words, anagramList.value);
      anagramsInfo := Some(table);
      r := Ok(());
      FillMeaning(AnagramScorer(anagramList.value), words);
    }

    /**
     * `integrate_word_information`: starts an empty `wordInfo`, stores
     * for every word the tuple of its four scores, then adds the totals.
     * A missing dictionary or word stops it with the rows stored so far.
     */
    method IntegrateWordInformation() returns (r: Result<()>)
      modifies this
      ensures Infos() == old(Infos())
      ensures var f := Fill(RowScorer(AllAnalyses, Infos()), words);
        && (f.error.Some? ==> r == Err(f.error.value) && wordInfo == Some(f.table))
        && (f.error.None? ==> r == Ok(()) && wordInfo == Some(WithTotals(f.table)))
    {
      var rows := RowScorer(AllAnalyses, Infos());
      var table := map[];
      wordInfo := Some(table);
      for i := 0 to |words|
        invariant Infos() == old(Infos())
        invariant wordInfo == Some(table) && Fill(rows, words[..i]) == Filled(table, None)
      {
        var row := Row(AllAnalyses, Infos(), words[i]);
        FillNext(rows, words, i);
        if row.Err? {
          FillStops(rows, words, i + 1);
          return Err(row.error);
        }
        table := table[words[i] := row.value];
        wordInfo := Some(table);
      }
      assert words[..|words|] == words;
      r := DetermineTotalDifficultyIndex();
    }

    /** `determine_total_difficulty_index`: every row gains its sum. */
    method DetermineTotalDifficultyIndex() returns (r: Result<()>)
      modifies this
      ensures Infos() == old(Infos())
      ensures r == (if old(wordInfo).None? then Err(AttributeError) else Ok(()))
      ensures wordInfo == (if old(wordInfo).None? then None else Some(WithTotals(old(wordInfo).value)))
    {
      if wordInfo.None? {
        return Err(AttributeError);
      }
      wordInfo := Some(WithTotals(wordInfo.value));
      r := Ok(());
    }

    function GetLengthInfo(): Result<map<string, int>>
      reads this
    {
      Attribute(lengthInfo)
    }

    function GetSilentLetterInfo(): Result<map<string, int>>
      reads this
    {
      Attribute(silentLetterInfo)
    }

    function GetSameSoundLetterInfo(): Result<map<string, int>>
      reads this
    {
      Attribute(sameSoundLetterInfo)
    }

    function GetAnagramsInfo(): Result<map<string, int>>
      reads this
    {
      Attribute(anagramsInfo)
    }

    function GetWordInfo(): Result<map<string, seq<int>>>
      reads this
    {
      Attribute(wordInfo)
    }

    function GetAnalysisDimensions(): seq<string>
      reads this
    {
      analysisDimensions
    }
  }

  /** The fixed weights of the length, silent-letter and same-sound checks. */
  const Weights: seq<int> := [3, 2, 2]

  /**
   * After the four checks have run over the same words without an
   * exception, integration succeeds and every row is the three scores
   * of `Index` followed by the anagram line length.
   */
  lemma IntegrationAfterChecks(infos: InfoSet, ws: seq<string>, lines: seq<seq<string>>)
    requires forall k :: 0 <= k < 3 ==> RanOver(infos, Analyses[k], Weights[k], ws)
    requires Fill(Scorer(SilentLetterAnalysis, 2, ws), ws).error.None?
    requires Fill(Scorer(SameSoundAnalysis, 2, ws), ws).error.None?
    requires infos.anagrams == Some(Fill(AnagramScorer(lines), ws).table)
    ensures Fill(RowScorer(AllAnalyses, infos), ws).error.None?
    ensures forall w :: w in ws ==> (w in Fill(RowScorer(AllAnalyses, infos), ws).table &&
      |Fill(RowScorer(AllAnalyses, infos), ws).table[w]| == 4 &&
      Fill(RowScorer(AllAnalyses, infos), ws).table[w][3] == LastLineWith(w, lines) &&
      forall k :: 0 <= k < 3 ==> Ok(Fill(RowScorer(AllAnalyses, infos), ws).table[w][k]) == Index(Analyses[k], Weights[k], ws, w))
  {
    forall k | 0 <= k < 3
      ensures forall w :: w in ws ==> (InfoOf(infos, Analyses[k]).Some? && w in InfoOf(infos, Analyses[k]).value &&
        Ok(InfoOf(infos, Analyses[k]).value[w]) == Index(Analyses[k], Weights[k], ws, w))
    {
      if k == 0 {
        AlwaysScored(Analyses[k], Weights[k], ws);
      }
      ScoredAll(infos, Analyses[k], Weights[k], ws);
    }
    var anagrams := AnagramScorer(lines);
    FillMeaning(anagrams, ws);
    forall w | w in ws ensures w in infos.anagrams.value && infos.anagrams.value[w] == LastLineWith(w, lines) {
      var i :| 0 <= i < |ws| && ws[i] == w;
    }
    RowsOfChecks(infos, ws, lines);
  }

  lemma RowsOfChecks(infos: InfoSet, ws: seq<string>, lines: seq<seq<string>>)
    requires forall k, w :: 0 <= k < 3 && w in ws ==> (InfoOf(infos, Analyses[k]).Some? && w in InfoOf(infos, Analyses[k]).value &&
      Ok(InfoOf(infos, Analyses[k]).value[w]) == Index(Analyses[k], Weights[k], ws, w))
    requires infos.anagrams.Some?
    requires forall w :: w in ws ==> w in infos.anagrams.value && infos.anagrams.value[w] == LastLineWith(w, lines)
    ensures Fill(RowScorer(AllAnalyses, infos), ws).error.None?
    ensures forall w :: w in ws ==> (w in Fill(RowScorer(AllAnalyses, infos), ws).table &&
      |Fill(RowScorer(AllAnalyses, infos), ws).table[w]| == 4 &&
      Fill(RowScorer(AllAnalyses, infos), ws).table[w][3] == LastLineWith(w, lines) &&
      forall k :: 0 <= k < 3 ==> Ok(Fill(RowScorer(AllAnalyses, infos), ws).table[w][k]) == Index(Analyses[k], Weights[k], ws, w))
  {
    var rows := RowScorer(AllAnalyses, infos);
    forall i | 0 <= i < |ws|
      ensures rows(ws[i]).Ok? && |rows(ws[i]).value| == 4 && rows(ws[i]).value[3] == LastLineWith(ws[i], lines)
      ensures forall k :: 0 <= k < 3 ==> Ok(rows(ws[i]).value[k]) == Index(Analyses[k], Weights[k], ws, ws[i])
    {
      assert ws[i] in ws;
      assert forall k :: 0 <= k < 4 ==> Name(Analyses[k]) in AllAnalyses;
      assert InfoOf(infos, Analyses[3]) == infos.anagrams;
      RowOfPresent(AllAnalyses, infos, ws[i]);
    }
    FillMeaning(rows, ws);
    forall w | w in ws ensures w in Fill(rows, ws).table {
      var i :| 0 <= i < |ws| && ws[i] == w;
    }
  }
}
