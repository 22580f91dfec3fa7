/**
 * The per-word counters of the earlier `WordAnalyzer` classes. wdiff.py
 * and wanalysis.py carry the same code under different method names
 * (`count_silent_h` and `has_silent_h`, `count_g_with_j_sound` and
 * `swap_g_for_j_check`, ...); it is modelled once, here.
 *
 * A "swappable" count is the number of pairs of letters, from two
 * different spellings of one sound, that a writer could confuse: with
 * `x` letters of one spelling and `y` of another there are `x * y`
 * such pairs.
 */
module Sounds {
  import opened Builtins
  import opened Rules
  import opened Scan

  // ---------------------------------------------------------------------
  // Silent letters

  /** `count_silent_h`: every h whose preceding character (the last one, for index 0) is not c. */
  method CountSilentH(w: string) returns (n: nat)
    ensures n == Tally(HSilentWrapped, w)
  {
    var r := CountByFind(HSilentWrapped, w);
    assert r == Ok(Tally(HSilentWrapped, w));
    n := r.value;
  }

  /**
   * `count_silent_u`: every u after q or g (read with Python's
   * wrap-around at index 0) and before e or i; a final u after q or g
   * raises `IndexError`.
   */
  method CountSilentU(w: string) returns (r: Result<nat>)
    ensures r == RuleCount(USilentWrapped, w)
  {
    r := CountByFind(USilentWrapped, w);
  }

  /** `determine_total_silent_letters`: silent h's plus silent u's. */
  function SilentLetterTotal(w: string): Result<nat>
  {
    Plus(Tally(HSilentWrapped, w), RuleCount(USilentWrapped, w))
  }

  method TotalSilentLetters(w: string) returns (r: Result<nat>)
    ensures r == SilentLetterTotal(w)
  {
    var h := CountSilentH(w);
    var u := CountSilentU(w);
    r := Plus(h, u);
  }

  // ---------------------------------------------------------------------
  // The letters whose sound depends on the next letter

  /** `count_g_with_j_sound`: g followed by i or e. */
  method CountGWithJSound(w: string) returns (n: nat)
    ensures n == Tally(GBeforeEI, w)
  {
    var r := CountAtPositions(GBeforeEI, w);
    assert r == Ok(Tally(GBeforeEI, w));
    n := r.value;
  }

  /** `count_c_with_s_sound`: c followed by i or e. */
  method CountCWithSSound(w: string) returns (n: nat)
    ensures n == Tally(CBeforeEI, w)
  {
    var r := CountAtPositions(CBeforeEI, w);
    assert r == Ok(Tally(CBeforeEI, w));
    n := r.value;
  }

  /** `count_q_with_k_sound`: q followed by "ue" or "ui"; `IndexError` when "qu" ends the word. */
  method CountQWithKSound(w: string) returns (r: Result<nat>)
    ensures r == RuleCount(QBeforeUEI, w)
  {
    r := CountAtPositions(QBeforeUEI, w);
  }

  /** `count_c_with_k_sound`: c followed by a, o or u. */
  method CountCWithKSound(w: string) returns (n: nat)
    ensures n == Tally(CBeforeAOU, w)
  {
    var r := CountAtPositions(CBeforeAOU, w);
    assert r == Ok(Tally(CBeforeAOU, w));
    n := r.value;
  }

  /** `count_y_with_ll_sound`: every y but a final one. */
  method CountYWithLLSound(w: string) returns (n: nat)
    ensures n == Tally(YNotFinal, w)
  {
    var r := CountAtPositions(YNotFinal, w);
    assert r == Ok(Tally(YNotFinal, w));
    n := r.value;
  }

  /** `count_l_with_ll_sound`: l followed by another l, overlapping pairs included. */
  method CountLWithLLSound(w: string) returns (n: nat)
    ensures n == Tally(LBeforeL, w)
  {
    var r := CountAtPositions(LBeforeL, w);
    assert r == Ok(Tally(LBeforeL, w));
    n := r.value;
  }

  // ---------------------------------------------------------------------
  // Swappable pairs

  /** The pairs that can be drawn from three spellings of one sound, two different spellings per pair. */
  function PairSum(x: nat, y: nat, z: nat): nat
  {
    x * y + x * z + y * z
  }

  /** `count_swappable_b_sounds`: b/v pairs. The guard `"b" in word and "v" in word` changes nothing. */
  function BSwappable(w: string): (n: nat)
    ensures n == Count(w, "b") * Count(w, "v")
  {
    ContainsIffCount(w, 'b');
    ContainsIffCount(w, 'v');
    if 'b' in w && 'v' in w then Count(w, "b") * Count(w, "v") else 0
  }

  /** `count_swappable_j_sounds`: pairs of a j and a g sounding /x/. */
  method JSwappable(w: string) returns (n: nat)
    ensures n == Count(w, "j") * Tally(GBeforeEI, w)
  {
    ContainsIffCount(w, 'j');
    n := 0;
    if 'j' in w && 'g' in w {
      var gs := CountGWithJSound(w);
      n := Count(w, "j") * gs;
    } else if 'g' !in w {
      LetterAbsent(GBeforeEI, w);
    }
  }

  /**
   * The /s/ pairs drawn from s, z and the c's that `cRule` accepts. The
   * c's are counted only when a c and an s or z are present, and only
   * then can their count raise.
   */
  function SPairs(w: string, cRule: Rule): Result<nat>
  {
    var cs := RuleCount(cRule, w);
    if 'c' in w && ('s' in w || 'z' in w) && cs.Err? then Err(cs.error)
    else Ok(PairSum(Count(w, "s"), (if cs.Ok? then cs.value else 0), Count(w, "z")))
  }

  /**
   * `count_swappable_s_sounds`: the branches on which two or three of s,
   * c and z are present all compute the pairs of `SPairs`.
   */
  method SSwappable(w: string, cRule: Rule) returns (r: Result<nat>)
    requires cRule == CBeforeEI || cRule == CBeforeEIUnguarded
    ensures r == SPairs(w, cRule)
  {
    ContainsIffCount(w, 's');
    ContainsIffCount(w, 'c');
    ContainsIffCount(w, 'z');
    if 'c' !in w {
      LetterAbsent(cRule, w);
    }
    var count := 0;
    if ('s' in w && 'c' in w) || ('s' in w && 'z' in w) || ('c' in w && 'z' in w) {
      var compliantCs := 0;
      if 'c' in w {
        var checked := CountAtPositions(cRule, w);
        if checked.Err? {
          return Err(checked.error);
        }
        compliantCs := checked.value;
      }
      if 's' in w && 'c' in w && 'z' in w {
        count := Count(w, "s") * compliantCs + Count(w, "s") * Count(w, "z") + compliantCs * Count(w, "z");
      } else if 's' in w && 'c' in w {
        count := Count(w, "s") * compliantCs;
      } else if 's' in w && 'z' in w {
        count := Count(w, "s") * Count(w, "z");
      } else if 'c' in w && 'z' in w {
        count := compliantCs * Count(w, "z");
      }
    }
    return Ok(count);
  }

  /**
   * The /k/ pairs drawn from k, the q's before "ue"/"ui" and the c's
   * before a, o or u. The q's are counted, and can raise, only when a q
   * and a k or c are present.
   */
  function KPairs(w: string): Result<nat>
  {
    var qs := RuleCount(QBeforeUEI, w);
    if 'q' in w && ('k' in w || 'c' in w) && qs.Err? then Err(qs.error)
    else Ok(PairSum(Count(w, "k"), (if qs.Ok? then qs.value else 0), Tally(CBeforeAOU, w)))
  }

  /** `count_swappable_k_sounds`: every branch computes the pairs of `KPairs`. */
  method KSwappable(w: string) returns (r: Result<nat>)
    ensures r == KPairs(w)
  {
    ContainsIffCount(w, 'k');
    ContainsIffCount(w, 'q');
    ContainsIffCount(w, 'c');
    if 'q' !in w {
      LetterAbsent(QBeforeUEI, w);
    }
    if 'c' !in w {
      LetterAbsent(CBeforeAOU, w);
    }
    var count := 0;
    if ('k' in w && 'q' in w) || ('k' in w && 'c' in w) || ('q' in w && 'c' in w) {
      var compliantQs := 0;
      var compliantCs := 0;
      if 'q' in w {
        var checked := CountQWithKSound(w);
        if checked.Err? {
          return Err(checked.error);
        }
        compliantQs := checked.value;
      }
      if 'c' in w {
        compliantCs := CountCWithKSound(w);
      }
      if 'k' in w && 'q' in w && 'c' in w {
        count := Count(w, "k") * compliantQs + Count(w, "k") * compliantCs + compliantQs * compliantCs;
      } else if 'k' in w && 'q' in w {
        count := Count(w, "k") * compliantQs;
      } else if 'k' in w && 'c' in w {
        count := Count(w, "k") * compliantCs;
      } else if 'q' in w && 'c' in w {
        count := compliantQs * compliantCs;
      }
    }
    return Ok(count);
  }

  /** `count_swappable_ll_sounds`: pairs of a non-final y and an l starting "ll". */
  method LLSwappable(w: string) returns (n: nat)
    ensures n == Tally(YNotFinal, w) * Tally(LBeforeL, w)
  {
    n := 0;
    if 'y' in w && 'l' in w {
      var ys := CountYWithLLSound(w);
      var ls := CountLWithLLSound(w);
      n := ys * ls;
    } else if 'y' !in w {
      LetterAbsent(YNotFinal, w);
    } else {
      LetterAbsent(LBeforeL, w);
    }
  }

  /**
   * `determine_total_same_sound_letters`: the five pair counts added left
   * to right, so the first exception (from the s or the k pairs) wins.
   */
  function SameSoundTotal(w: string): Result<nat>
  {
    Add(Add(Add(Add(Ok(BSwappable(w)), Ok(Count(w, "j") * Tally(GBeforeEI, w))),
      SPairs(w, CBeforeEI)), KPairs(w)), Ok(Tally(YNotFinal, w) * Tally(LBeforeL, w)))
  }

  method TotalSameSoundLetters(w: string) returns (r: Result<nat>)
    ensures r == SameSoundTotal(w)
  {
    var b := BSwappable(w);
    var j := JSwappable(w);
    var s := SSwappable(w, CBeforeEI);
    var k := KSwappable(w);
    var ll := LLSwappable(w);
    r := Add(Add(Add(Add(Ok(b), Ok(j)), s), k), Ok(ll));
  }
}
