/**
 * How the analyzers of the different versions relate: the
 * position-by-position scans of wdiff.py, wanalysis.py and analysis.py
 * against the strict rules, and hence against the substring counts of
 * the `Word` class; and the alphabet of analysis.py against the
 * alphabet of the `Word` class.
 */
module Agreement {
  import opened Builtins
  import opened Rules
  import Word
  import Analysis

  /**
   * Two rules on the same letter that judge every occurrence alike,
   * except possibly a raising final one, count alike; a raising final
   * occurrence makes the whole count raise.
   */
  lemma {:induction false} SameButLast(r1: Rule, r2: Rule, w: string, i: nat)
    requires Letter(r1) == Letter(r2)
    requires forall k :: i <= k < |w| && w[k] == Letter(r1) ==> Judge(r2, w, k).Ok?
    requires forall k :: i <= k < |w| && w[k] == Letter(r1) && !(k == |w| - 1 && Judge(r1, w, k).Err?) ==>
      Judge(r1, w, k) == Judge(r2, w, k)
    ensures RuleCountFrom(r1, w, i) ==
      if i < |w| && w[|w| - 1] == Letter(r1) && Judge(r1, w, |w| - 1).Err? then Err(Judge(r1, w, |w| - 1).error)
      else RuleCountFrom(r2, w, i)
    decreases |w| - i
  {
    if i < |w| {
      SameButLast(r1, r2, w, i + 1);
    }
  }

  /** A word ends with the letter `c`. */
  predicate EndsWith(w: string, c: char)
  {
    |w| > 0 && w[|w| - 1] == c
  }

  /**
   * The unguarded g and c scans of analysis.py raise `IndexError` exactly
   * when the word ends with that letter; otherwise they count what the
   * guarded scans count.
   */
  lemma UnguardedScans(w: string)
    ensures RuleCount(GBeforeEIUnguarded, w) == if EndsWith(w, 'g') then Err(IndexError) else Ok(Tally(GBeforeEI, w))
    ensures RuleCount(CBeforeEIUnguarded, w) == if EndsWith(w, 'c') then Err(IndexError) else Ok(Tally(CBeforeEI, w))
  {
    SameButLast(GBeforeEIUnguarded, GBeforeEI, w, 0);
    SameButLast(CBeforeEIUnguarded, CBeforeEI, w, 0);
  }

  /** "zinc" ends in c: analysis.py's c scan raises on it, the guarded scan finds no c before e or i. */
  lemma ZincRaises()
    ensures RuleCount(CBeforeEIUnguarded, "zinc") == Err(IndexError)
    ensures Tally(CBeforeEI, "zinc") == 0
  {
    UnguardedScans("zinc");
    assert "zinc"[1] == 'i' && "zinc"[3] == 'c';
    assert Judge(CBeforeEI, "zinc", 3) == Ok(false);
  }

  /** The u at the end of a word, straight after q or g: the case the wrapped u scan cannot judge. */
  predicate FinalUAfterQG(w: string)
  {
    |w| >= 2 && w[|w| - 1] == 'u' && (w[|w| - 2] == 'q' || w[|w| - 2] == 'g')
  }

  /**
   * The u the wrapped scan also counts at index 0, where `word[i - 1]`
   * reads the last letter: a leading u before e or i in a word that ends
   * with q or g.
   */
  function WrappedLeadingU(w: string): nat
  {
    if |w| >= 2 && w[0] == 'u' && (w[|w| - 1] == 'q' || w[|w| - 1] == 'g') && IsEOrI(w[1]) then 1 else 0
  }

  /**
   * The silent-u scan of wdiff.py and wanalysis.py raises exactly on a
   * final u after q or g; otherwise it counts the u's strictly between q
   * or g and e or i, as the `Word` class does, plus the leading u that
   * the wrap-around at index 0 lets through.
   */
  lemma SilentUScan(w: string)
    ensures RuleCount(USilentWrapped, w) ==
      if FinalUAfterQG(w) then Err(IndexError) else Ok(Word.CheckSilentU(w) + WrappedLeadingU(w))
  {
    Word.SilentLettersArePositional(w);
    if |w| > 0 {
      SameButLast(USilentWrapped, USilent, w, 1);
    }
  }

  /**
   * The silent-h scan of wdiff.py and wanalysis.py reads `word[i - 1]`,
   * which at index 0 is the last letter: a word that starts with h and
   * ends with c loses that h. On every other word it agrees with the
   * `Word` class.
   */
  lemma SilentHScan(w: string)
    ensures Word.CheckSilentH(w) == Tally(HSilentWrapped, w) + (if |w| > 0 && w[0] == 'h' && w[|w| - 1] == 'c' then 1 else 0)
  {
    Word.SilentLettersArePositional(w);
    if |w| > 0 {
      SameButLast(HSilentWrapped, HSilent, w, 1);
    }
  }

  /**
   * On words of plain small letters and ñ, the `Word` class accepts
   * every one, while analysis.py flags exactly those with an ñ as having
   * a special character.
   */
  lemma AlphabetsDifferOnEnye(w: string)
    requires |w| > 0 && forall i :: 0 <= i < |w| ==> 'a' <= w[i] <= 'z' || w[i] == 'ñ'
    ensures Word.IsWordText(w)
    ensures Analysis.HasSpecial(w) <==> 'ñ' in w
  {
    if 'ñ' in w {
      Analysis.EnyeIsSpecial(w);
    }
  }

  /** "niño" is a word for the `Word` class and an invalid word for analysis.py. */
  lemma NinoIsRejected()
    ensures Word.IsWordText("niño")
    ensures Analysis.HasSpecial("niño")
  {
    assert "niño"[2] == 'ñ';
    AlphabetsDifferOnEnye("niño");
  }

  /** All three features summed: length, silent letters and shared phonemes. */
  lemma FullTotal(t: string)
    requires |t| > 0
    ensures Word.FeatureSum(Word.AllFeatures, t) == |t| + Word.CheckSilentLetters(t) + Word.CheckSharedPhonemes(t)
    ensures Word.FeatureSum({}, t) == 0
  {
  }

  /** "hecho": the leading h is silent, the h of "ch" is not. */
  lemma HechoSilentH()
    ensures Word.CheckSilentH("hecho") == 1
  {
    Word.SilentHIsPositional("hecho");
  }

  /** "guiso": the u between g and i is silent. */
  lemma GuisoSilentU()
    ensures Word.CheckSilentU("guiso") == 1
  {
    Word.SilentUIsPositional("guiso");
  }

  /** A total made of cached features: all three, or two of them. */
  lemma TotalExamples()
    ensures Word.CalculateTotalDifficulty(Some(1), Some(2), Some(3)) == Ok(6)
    ensures Word.CalculateTotalDifficulty(Some(1), None, Some(3)) == Ok(4)
  {
  }
}
