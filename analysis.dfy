/**
 * The `WordAnalysis` class of analysis.py, the first version of the
 * analyzer. It screens out words with characters outside its accepted
 * alphabet, then fills three dictionaries: length, silent letters and
 * same-sound letters. Its same-sound checks are an early form of those
 * in `Sounds`. The b and j checks raise `UnboundLocalError` when their
 * guard fails. The g and c scans have no guard for a final letter. The
 * k and l checks always give 0.
 */
module Analysis {
  import opened Builtins
  import opened Rules
  import opened Scan
  import opened Sounds
  import opened Tables
  import Wdiff

  // ---------------------------------------------------------------------
  // Special characters

  /**
   * `acceptedSymbols`. Where "Ñ" was meant, the file holds the two
   * characters U+00C3 and U+2018: the UTF-8 bytes of "Ñ" read as
   * Windows-1252 and stored again.
   */
  const AcceptedSymbols: string := "ABCDEFGHIJKLMN\U{C3}\U{2018}OPQRSTUVWXYZ"

  predicate IsAccepted(c: char)
  {
    'A' <= c <= 'Z' || c == '\U{C3}' || c == '\U{2018}'
  }

  lemma AcceptedIsListed(c: char)
    ensures IsAccepted(c) <==> c in AcceptedSymbols
  {
    if IsAccepted(c) {
      AcceptedAreListed(c);
    }
  }

  lemma AcceptedAreListed(c: char)
    requires IsAccepted(c)
    ensures c in AcceptedSymbols
  {
    if 'A' <= c <= 'N' {
      assert AcceptedSymbols[c as int - 'A' as int] == c;
    } else if 'O' <= c <= 'Z' {
      assert AcceptedSymbols[c as int - 'A' as int + 2] == c;
    } else if c == '\U{C3}' {
      assert AcceptedSymbols[14] == c;
    } else {
      assert AcceptedSymbols[15] == c;
    }
  }

  /** Some letter of `w`, upper-cased, is not an accepted symbol. */
  predicate HasSpecial(w: string)
  {
    exists i :: 0 <= i < |w| && !IsAccepted(UpperChar(w[i]))
  }

  /**
   * `has_special_characters`: `True` at the first letter outside the
   * accepted symbols; without one the method falls off its end and
   * returns `None`.
   */
  method HasSpecialCharacters(w: string) returns (r: Option<bool>)
    ensures r.Some? <==> HasSpecial(w)
    ensures r.Some? ==> r.value
  {
    for i := 0 to |w|
      invariant forall j :: 0 <= j < i ==> IsAccepted(UpperChar(w[j]))
    {
      AcceptedIsListed(UpperChar(w[i]));
      if UpperChar(w[i]) !in AcceptedSymbols {
        return Some(true);
      }
    }
    return None;
  }

  /** As written, every word with an ñ, in either case, counts as having a special character. */
  lemma EnyeIsSpecial(w: string)
    requires 'ñ' in w || 'Ñ' in w
    ensures HasSpecial(w)
  {
    var i :| 0 <= i < |w| && (w[i] == 'ñ' || w[i] == 'Ñ');
    assert !IsAccepted(UpperChar(w[i]));
  }

  // ---------------------------------------------------------------------
  // The accepted symbols as evidently intended: the capitals A to Z and Ñ

  const IntendedSymbols: string := "ABCDEFGHIJKLMN\U{D1}OPQRSTUVWXYZ"

  predicate IsIntendedAccepted(c: char)
  {
    'A' <= c <= 'Z' || c == '\U{D1}'
  }

  lemma IntendedIsListed(c: char)
    ensures IsIntendedAccepted(c) <==> c in IntendedSymbols
  {
    if IsIntendedAccepted(c) {
      IntendedAreListed(c);
    }
  }

  lemma IntendedAreListed(c: char)
    requires IsIntendedAccepted(c)
    ensures c in IntendedSymbols
  {
    if 'A' <= c <= 'N' {
      assert IntendedSymbols[c as int - 'A' as int] == c;
    } else if 'O' <= c <= 'Z' {
      assert IntendedSymbols[c as int - 'A' as int + 1] == c;
    } else {
      assert IntendedSymbols[14] == c;
    }
  }

  /** Some letter of `w`, upper-cased, is not one of the intended symbols. */
  predicate HasSpecialIntended(w: string)
  {
    exists i :: 0 <= i < |w| && !IsIntendedAccepted(UpperChar(w[i]))
  }

  /** `has_special_characters` with Ñ among the accepted symbols. */
  method HasSpecialCharactersCorrected(w: string) returns (r: Option<bool>)
    ensures r.Some? <==> HasSpecialIntended(w)
    ensures r.Some? ==> r.value
  {
    for i := 0 to |w|
      invariant forall j :: 0 <= j < i ==> IsIntendedAccepted(UpperChar(w[j]))
    {
      IntendedIsListed(UpperChar(w[i]));
      if UpperChar(w[i]) !in IntendedSymbols {
        return Some(true);
      }
    }
    return None;
  }

  /** The corrected screen lets through every word of the letters a to z and ñ, in either case. */
  lemma IntendedAcceptsSpanishLetters(w: string)
    requires forall i :: 0 <= i < |w| ==> 'a' <= w[i] <= 'z' || 'A' <= w[i] <= 'Z' || w[i] == 'ñ' || w[i] == 'Ñ'
    ensures !HasSpecialIntended(w)
  {
    forall i | 0 <= i < |w| ensures IsIntendedAccepted(UpperChar(w[i])) {
    }
  }

  /** "niño": rejected as written, accepted by the corrected screen. */
  lemma NinoAccepted()
    ensures !HasSpecialIntended("niño")
    ensures HasSpecial("niño")
  {
    IntendedAcceptsSpanishLetters("niño");
    assert "niño"[2] == 'ñ';
    EnyeIsSpecial("niño");
  }

  /** Away from ñ and Ñ, every word the screen as written flags is flagged by the corrected one. */
  lemma WrittenFlagsAreIntended(w: string)
    ensures HasSpecial(w) && 'ñ' !in w && 'Ñ' !in w ==> HasSpecialIntended(w)
  {
    if HasSpecial(w) && 'ñ' !in w && 'Ñ' !in w {
      var i :| 0 <= i < |w| && !IsAccepted(UpperChar(w[i]));
      assert w[i] in w;
    }
  }

  /**
   * Away from the characters that upper-case to the two stray symbols
   * (ã, Ã and U+2018), every word the corrected screen flags is flagged
   * as written too.
   */
  lemma IntendedFlagsAreWritten(w: string)
    ensures HasSpecialIntended(w) && 'ã' !in w && 'Ã' !in w && '\U{2018}' !in w ==> HasSpecial(w)
  {
    if HasSpecialIntended(w) && 'ã' !in w && 'Ã' !in w && '\U{2018}' !in w {
      var i :| 0 <= i < |w| && !IsIntendedAccepted(UpperChar(w[i]));
      assert w[i] in w;
    }
  }

  // ---------------------------------------------------------------------
  // Removing words

  /** Python's `list.remove(x)` on a list holding `x`: its first occurrence goes. */
  function RemoveFirst(xs: seq<string>, x: string): (r: seq<string>)
    requires x in xs
    ensures |r| == |xs| - 1
    ensures multiset(r) == multiset(xs) - multiset{x}
  {
    if xs[0] == x then
      assert xs == [xs[0]] + xs[1..];
      xs[1..]
    else
      assert xs == [xs[0]] + xs[1..];
      [xs[0]] + RemoveFirst(xs[1..], x)
  }

  /** The list after removing the words of `ws` in turn, and the `ValueError` of the first one missing. */
  datatype Removal = Removal(remaining: seq<string>, error: Option<Error>)

  function RemoveEach(xs: seq<string>, ws: seq<string>): Removal
    decreases |ws|
  {
    if |ws| == 0 then Removal(xs, None)
    else if ws[0] !in xs then Removal(xs, Some(ValueError))
    else RemoveEach(RemoveFirst(xs, ws[0]), ws[1..])
  }

  /** Removing succeeds exactly when `ws` is a sub-multiset of the list, and then takes exactly those words out. */
  lemma {:induction false} RemoveEachMeaning(xs: seq<string>, ws: seq<string>)
    ensures RemoveEach(xs, ws).error.None? <==> multiset(ws) <= multiset(xs)
    ensures RemoveEach(xs, ws).error.None? ==> multiset(RemoveEach(xs, ws).remaining) == multiset(xs) - multiset(ws)
    ensures RemoveEach(xs, ws).error.Some? ==> RemoveEach(xs, ws).error.value == ValueError
    decreases |ws|
  {
    if |ws| > 0 {
      assert ws == [ws[0]] + ws[1..];
      if ws[0] in xs {
        RemoveEachMeaning(RemoveFirst(xs, ws[0]), ws[1..]);
      } else {
        assert multiset(xs)[ws[0]] == 0;
      }
    }
  }

  /** The words with a special character, in list order. */
  function Special(xs: seq<string>): seq<string>
  {
    if |xs| == 0 then [] else (if HasSpecial(xs[0]) then [xs[0]] else []) + Special(xs[1..])
  }

  /** The words without one, in list order. */
  function Plain(xs: seq<string>): seq<string>
  {
    if |xs| == 0 then [] else (if HasSpecial(xs[0]) then [] else [xs[0]]) + Plain(xs[1..])
  }

  /** A word in front that none of the removed words equals stays in front. */
  lemma {:induction false} RemoveEachKeepsFront(a: string, ys: seq<string>, ws: seq<string>)
    requires a !in ws
    ensures RemoveEach([a] + ys, ws) == Removal([a] + RemoveEach(ys, ws).remaining, RemoveEach(ys, ws).error)
    decreases |ws|
  {
    if |ws| > 0 {
      assert ws[0] != a;
      assert ws[1..] == ws[1..] && a !in ws[1..];
      if ws[0] in ys {
        assert ([a] + ys)[1..] == ys;
        assert RemoveFirst([a] + ys, ws[0]) == [a] + RemoveFirst(ys, ws[0]);
        RemoveEachKeepsFront(a, RemoveFirst(ys, ws[0]), ws[1..]);
      } else {
        assert ws[0] !in [a] + ys;
      }
    }
  }

  lemma {:induction false} SpecialAreSpecial(xs: seq<string>)
    ensures forall w :: w in Special(xs) ==> HasSpecial(w)
  {
    if |xs| > 0 {
      SpecialAreSpecial(xs[1..]);
    }
  }

  /**
   * Removing the special words, one occurrence each, leaves exactly the
   * plain words in their order, and never raises.
   */
  lemma {:induction false} EliminateSpecialLeavesPlain(xs: seq<string>)
    ensures RemoveEach(xs, Special(xs)) == Removal(Plain(xs), None)
  {
    if |xs| > 0 {
      EliminateSpecialLeavesPlain(xs[1..]);
      if HasSpecial(xs[0]) {
        RemoveSpecialFront(xs);
      } else {
        KeepPlainFront(xs);
      }
    }
  }

  lemma RemoveSpecialFront(xs: seq<string>)
    requires |xs| > 0 && HasSpecial(xs[0])
    ensures RemoveEach(xs, Special(xs)) == RemoveEach(xs[1..], Special(xs[1..]))
    ensures Plain(xs) == Plain(xs[1..])
  {
    var s := Special(xs);
    assert s == [xs[0]] + Special(xs[1..]);
    assert s[0] == xs[0] && s[1..] == Special(xs[1..]);
    assert RemoveFirst(xs, xs[0]) == xs[1..];
  }

  lemma KeepPlainFront(xs: seq<string>)
    requires |xs| > 0 && !HasSpecial(xs[0])
    ensures RemoveEach(xs, Special(xs)) ==
      Removal([xs[0]] + RemoveEach(xs[1..], Special(xs[1..])).remaining, RemoveEach(xs[1..], Special(xs[1..])).error)
    ensures Plain(xs) == [xs[0]] + Plain(xs[1..])
  {
    assert Special(xs) == Special(xs[1..]);
    SpecialAreSpecial(xs[1..]);
    assert xs == [xs[0]] + xs[1..];
    RemoveEachKeepsFront(xs[0], xs[1..], Special(xs[1..]));
  }

  lemma {:induction false} PlainArePlain(xs: seq<string>)
    ensures forall w :: w in Plain(xs) ==> !HasSpecial(w)
    ensures forall w :: w in xs && !HasSpecial(w) ==> w in Plain(xs)
  {
    if |xs| > 0 {
      PlainArePlain(xs[1..]);
      assert forall w :: w in xs ==> w == xs[0] || w in xs[1..];
    }
  }

  lemma {:induction false} NoSpecialIsPlain(xs: seq<string>)
    requires Special(xs) == []
    ensures Plain(xs) == xs
  {
    if |xs| > 0 {
      assert !HasSpecial(xs[0]);
      NoSpecialIsPlain(xs[1..]);
    }
  }

  /** The loop of `check_special_characters`: the words with a special character, in list order. */
  method CollectSpecial(ws: seq<string>) returns (found: seq<string>)
    ensures found == Special(ws)
  {
    found := [];
    for i := 0 to |ws|
      invariant Special(ws) == found + Special(ws[i..])
    {
      assert ws[i..][0] == ws[i] && ws[i..][1..] == ws[i + 1..];
      var special := HasSpecialCharacters(ws[i]);
      if special.Some? && special.value {
        found := found + [ws[i]];
      }
    }
    assert ws[|ws|..] == [];
  }

  // ---------------------------------------------------------------------
  // Same-sound letters, as first written

  /** `check_b_sound`: the count is only assigned under its guard; otherwise returning it raises. */
  function CheckBSound(w: string): Result<nat>
  {
    if 'b' in w && 'v' in w then Ok(Count(w, "b") * Count(w, "v")) else Err(UnboundLocalError)
  }

  /** `gSwappable_check`: g before i or e, with no check for a final g. */
  method GSwappableCheck(w: string) returns (r: Result<nat>)
    ensures r == RuleCount(GBeforeEIUnguarded, w)
  {
    r := CountAtPositions(GBeforeEIUnguarded, w);
  }

  /** `cSwappable_check`: c before i or e, with no check for a final c. */
  method CSwappableCheck(w: string) returns (r: Result<nat>)
    ensures r == RuleCount(CBeforeEIUnguarded, w)
  {
    r := CountAtPositions(CBeforeEIUnguarded, w);
  }

  /** The value of `check_j_sound`. */
  function JSound(w: string): Result<nat>
  {
    if 'j' in w && 'g' in w then
      match RuleCount(GBeforeEIUnguarded, w)
      case Ok(gs) => Ok(Count(w, "j") * gs)
      case Err(e) => Err(e)
    else Err(UnboundLocalError)
  }

  /** `check_j_sound`: like `check_b_sound`, it raises when its guard fails. */
  method CheckJSound(w: string) returns (r: Result<nat>)
    ensures r == JSound(w)
  {
    if 'j' in w && 'g' in w {
      var gs := GSwappableCheck(w);
      if gs.Err? {
        return Err(gs.error);
      }
      return Ok(Count(w, "j") * gs.value);
    }
    return Err(UnboundLocalError);
  }

  /** `has_same_sound_letters`: b, j, s, then the k and l checks, which return 0. */
  function UnguardedSameSoundTotal(w: string): Result<nat>
  {
    Add(Add(Add(Add(CheckBSound(w), JSound(w)), SPairs(w, CBeforeEIUnguarded)), Ok(0)), Ok(0))
  }

  method HasSameSoundLetters(w: string) returns (r: Result<nat>)
    ensures r == UnguardedSameSoundTotal(w)
  {
    var b := CheckBSound(w);
    if b.Err? {
      return Err(b.error);
    }
    var j := CheckJSound(w);
    if j.Err? {
      return Err(j.error);
    }
    var s := SSwappable(w, CBeforeEIUnguarded);
    r := Add(Add(Add(Add(b, j), s), Ok(0)), Ok(0));
  }

  /**
   * The first two checks raise unless the word holds b and v, and j and
   * g: on any other word the whole analysis raises. Where `check_b_sound`
   * does not raise, it agrees with the wdiff.py count, which never raises.
   */
  lemma SameSoundNeedsAllFour(w: string)
    ensures UnguardedSameSoundTotal(w).Ok? ==> 'b' in w && 'v' in w && 'j' in w && 'g' in w
    ensures !('b' in w && 'v' in w) ==> UnguardedSameSoundTotal(w) == Err(UnboundLocalError)
    ensures !('j' in w && 'g' in w) ==> JSound(w) == Err(UnboundLocalError)
    ensures CheckBSound(w).Ok? ==> CheckBSound(w).value == BSwappable(w)
  {
  }

  /** On the word "casa" the analysis raises at once. */
  lemma CasaRaises()
    ensures UnguardedSameSoundTotal("casa") == Err(UnboundLocalError)
  {
    assert "casa"[0] == 'c' && "casa"[1] == 'a' && "casa"[2] == 's' && "casa"[3] == 'a';
    assert 'b' !in "casa";
  }

  // ---------------------------------------------------------------------
  // The analyzer

  datatype Dimension = LengthDimension | SilentLetterDimension | SameSoundDimension

  /**
   * A word's score: its length, its silent letters, and twice its
   * same-sound pairs. Unlike `Wdiff.Index` the weights are fixed, the
   * same-sound count is this file's unguarded one, and there are no anagrams.
   */
  function Index(d: Dimension, w: string): Result<int>
  {
    match d
    case LengthDimension => Ok(|w|)
    case SilentLetterDimension => Wdiff.Weighted(SilentLetterTotal(w), 1)
    case SameSoundDimension => Wdiff.Weighted(UnguardedSameSoundTotal(w), 2)
  }

  function Scorer(d: Dimension): string -> Result<int>
  {
    w => Index(d, w)
  }

  method Score(d: Dimension, w: string) returns (r: Result<int>)
    ensures r == Index(d, w)
  {
    match d
    case LengthDimension =>
      r := Ok(|w|);
    case SilentLetterDimension =>
      var n := TotalSilentLetters(w);
      r := Wdiff.Weighted(n, 1);
    case SameSoundDimension =>
      var n := HasSameSoundLetters(w);
      r := Wdiff.Weighted(n, 2);
  }

  method Tabulate(d: Dimension, ws: seq<string>) returns (f: Filled<int>)
    ensures f == Fill(Scorer(d), ws)
  {
    var table := map[];
    for i := 0 to |ws|
      invariant Fill(Scorer(d), ws[..i]) == Filled(table, None)
    {
      var s := Score(d, ws[i]);
      FillNext(Scorer(d), ws, i);
      if s.Err? {
        FillStops(Scorer(d), ws, i + 1);
        return Filled(table, Some(s.error));
      }
      table := table[ws[i] := s.value];
    }
    assert ws[..|ws|] == ws;
    f := Filled(table, None);
  }

  /** The four names of `dimensions`, one of which (accents) no method fills. */
  const Dimensions: seq<string> := ["length", "accents", "silent letters", "same sound letters"]

  class WordAnalysis {
    var words: seq<string>
    const dimensions: seq<string>
    var wordsWithSpecialCharacters: Option<seq<string>>
    var lengthInfo: Option<map<string, int>>
    var silentLetterInfo: Option<map<string, int>>
    var sameSoundLetterInfo: Option<map<string, int>>

    constructor (ws: seq<string>)
      ensures words == ws && dimensions == Dimensions
      ensures wordsWithSpecialCharacters.None? && lengthInfo.None? && silentLetterInfo.None? && sameSoundLetterInfo.None?
    {
      words := ws;
      dimensions := Dimensions;
      wordsWithSpecialCharacters := None;
      lengthInfo := None;
      silentLetterInfo := None;
      sameSoundLetterInfo := None;
    }

    /** `eliminate_invalid_words`: removes each given word once, raising `ValueError` at the first one missing. */
    method EliminateInvalidWords(ws: seq<string>) returns (r: Result<()>)
      modifies this
      ensures words == RemoveEach(old(words), ws).remaining
      ensures r == (if RemoveEach(old(words), ws).error.Some? then Err(ValueError) else Ok(()))
      ensures wordsWithSpecialCharacters == old(wordsWithSpecialCharacters)
      ensures lengthInfo == old(lengthInfo) && silentLetterInfo == old(silentLetterInfo)
      ensures sameSoundLetterInfo == old(sameSoundLetterInfo)
    {
      var remaining := words;
      for i := 0 to |ws|
        invariant RemoveEach(old(words), ws) == RemoveEach(remaining, ws[i..])
      {
        assert ws[i..][0] == ws[i] && ws[i..][1..] == ws[i + 1..];
        if ws[i] !in remaining {
          words := remaining;
          return Err(ValueError);
        }
        remaining := RemoveFirst(remaining, ws[i]);
      }
      assert ws[|ws|..] == [];
      words := remaining;
      r := Ok(());
    }

    /**
     * `check_special_characters`: collects the words with a special
     * character and, if there are any, removes them. The word list is
     * left with exactly its plain words, in order.
     */
    method CheckSpecialCharacters()
      modifies this
      ensures wordsWithSpecialCharacters == Some(Special(old(words)))
      ensures words == Plain(old(words))
      ensures forall w :: w in words ==> !HasSpecial(w)
      ensures forall w :: w in old(words) && !HasSpecial(w) ==> w in words
      ensures lengthInfo == old(lengthInfo) && silentLetterInfo == old(silentLetterInfo)
      ensures sameSoundLetterInfo == old(sameSoundLetterInfo)
    {
      var found := CollectSpecial(words);
      wordsWithSpecialCharacters := Some(found);
      PlainArePlain(words);
      if found != [] {
        EliminateSpecialLeavesPlain(words);
        var r := EliminateInvalidWords(found);
      } else {
        NoSpecialIsPlain(words);
      }
    }

    /** `length`: every word scores its number of letters. */
    method Length()
      modifies this
      ensures words == old(words) && silentLetterInfo == old(silentLetterInfo) && sameSoundLetterInfo == old(sameSoundLetterInfo)
      ensures lengthInfo.Some? && lengthInfo.value.Keys == set w | w in words
      ensures forall w :: w in lengthInfo.value ==> lengthInfo.value[w] == |w|
    {
      var f := Tabulate(LengthDimension, words);
      lengthInfo := Some(f.table);
      FillMeaning(Scorer(LengthDimension), words);
    }

    /** `check_silent_letters`: one point per silent letter; a raising count stops the loop. */
    method CheckSilentLetters() returns (r: Result<()>)
      modifies this
      ensures words == old(words) && lengthInfo == old(lengthInfo) && sameSoundLetterInfo == old(sameSoundLetterInfo)
      ensures silentLetterInfo == Some(Fill(Scorer(SilentLetterDimension), words).table)
      ensures r == Outcome(Fill(Scorer(SilentLetterDimension), words))
    {
      var f := Tabulate(SilentLetterDimension, words);
      silentLetterInfo := Some(f.table);
      r := Outcome(f);
    }

    /** `check_same_sound_letter`: two points per pair; on most words the b check raises first. */
    method CheckSameSoundLetter() returns (r: Result<()>)
      modifies this
      ensures words == old(words) && lengthInfo == old(lengthInfo) && silentLetterInfo == old(silentLetterInfo)
      ensures sameSoundLetterInfo == Some(Fill(Scorer(SameSoundDimension), words).table)
      ensures r == Outcome(Fill(Scorer(SameSoundDimension), words))
    {
      var f := Tabulate(SameSoundDimension, words);
      sameSoundLetterInfo := Some(f.table);
      r := Outcome(f);
    }

    function GetSilentLetterInfo(): Result<map<string, int>>
      reads this
    {
      Attribute(silentLetterInfo)
    }

    function GetLengthInfo(): Result<map<string, int>>
      reads this
    {
      Attribute(lengthInfo)
    }

    function GetSameSoundLetterInfo(): Result<map<string, int>>
      reads this
    {
      Attribute(sameSoundLetterInfo)
    }
  }

  /**
   * After screening, the same-sound analysis stores nothing for a word
   * list whose first word lacks a b or a v: it raises on that word.
   */
  lemma SameSoundStopsAtFirstWord(ws: seq<string>)
    requires |ws| > 0 && !('b' in ws[0] && 'v' in ws[0])
    ensures Fill(Scorer(SameSoundDimension), ws) == Filled(map[], Some(UnboundLocalError))
  {
    SameSoundNeedsAllFour(ws[0]);
    assert ws[..1][..0] == [];
    assert Fill(Scorer(SameSoundDimension), ws[..1]) == Filled(map[], Some(UnboundLocalError));
    FillStops(Scorer(SameSoundDimension), ws, 1);
  }
}
