/**
 * A Spanish word and its spelling-difficulty features (wdiff/word.py).
 *
 * A word's text is normalised (surrounding whitespace removed, lower
 * case) and must be non-empty and drawn from the Spanish alphabet. Its
 * features are counts of substrings: silent letters (u in que/qui/gue/gui,
 * h not after c) and graphemes that share a phoneme with another grapheme
 * (/s/, /j/, /k/, /y/, /b/). The `Word` object caches each feature the
 * first time it is asked for, and caches the total of whichever features
 * were cached when the total is first asked for.
 */
module Word {
  import opened Builtins
  import opened Rules

  /** The characters a word may contain: the Spanish alphabet in small letters, and the space. */
  const ValidCharacters: string := "aábcdeéfghiíjklmnñoópqrstuúüvwxyz "

  // ---------------------------------------------------------------------
  // Construction: normalisation and validation

  /** `text.strip().lower()` */
  function NormalizeText(raw: string): string
  {
    Lower(Strip(raw))
  }

  /**
   * A normalised text neither starts nor ends with whitespace, and every
   * character is already in lower case.
   */
  lemma NormalizeShape(raw: string)
    ensures var t := NormalizeText(raw);
      && (|t| > 0 ==> !IsWhitespace(t[0]) && !IsWhitespace(t[|t| - 1]))
      && forall i :: 0 <= i < |t| ==> LowerChar(t[i]) == t[i]
  {
    var left := StripLeft(raw);
    StripLeftShape(raw);
    StripRightShape(left);
    var stripped := StripRight(left);
    if |stripped| > 0 {
      assert stripped[0] == left[0];
    }
    var t := NormalizeText(raw);
    forall i | 0 <= i < |t| ensures LowerChar(t[i]) == t[i] {
      LowerCharIdempotent(stripped[i]);
    }
  }

  lemma LowerCharIdempotent(c: char)
    ensures LowerChar(LowerChar(c)) == LowerChar(c)
  {
  }

  lemma {:induction false} StripLeftKeeps(s: string)
    requires |s| == 0 || !IsWhitespace(s[0])
    ensures StripLeft(s) == s
  {
  }

  lemma {:induction false} StripRightKeeps(s: string)
    requires |s| == 0 || !IsWhitespace(s[|s| - 1])
    ensures StripRight(s) == s
  {
  }

  lemma LowerKeeps(t: string)
    requires forall i :: 0 <= i < |t| ==> LowerChar(t[i]) == t[i]
    ensures Lower(t) == t
  {
    var l := Lower(t);
    forall i | 0 <= i < |t| ensures l[i] == t[i] {
      assert l[i] == LowerChar(t[i]);
    }
  }

  /** Normalising a normalised text changes nothing. */
  lemma NormalizeIdempotent(raw: string)
    ensures NormalizeText(NormalizeText(raw)) == NormalizeText(raw)
  {
    var t := NormalizeText(raw);
    NormalizeShape(raw);
    StripLeftKeeps(t);
    StripRightKeeps(t);
    assert Strip(t) == t;
    LowerKeeps(t);
    assert NormalizeText(t) == Lower(Strip(t));
  }

  /** Membership in `ValidCharacters`, spelled out as ranges (see `ValidCharacterIsListed`). */
  predicate IsValidCharacter(c: char)
  {
    'a' <= c <= 'z' || c == 'á' || c == 'é' || c == 'í' || c == 'ñ' || c == 'ó' || c == 'ú' || c == 'ü' || c == ' '
  }

  lemma ValidCharacterIsListed(c: char)
    ensures IsValidCharacter(c) <==> c in ValidCharacters
  {
  }

  /** A text the `Word` class accepts: non-empty, every character in `ValidCharacters`. */
  predicate IsWordText(t: string)
  {
    |t| > 0 && forall i :: 0 <= i < |t| ==> IsValidCharacter(t[i])
  }

  predicate WordLengthIsInvalid(t: string)
  {
    |t| == 0
  }

  /** Scans the text and stops at the first character outside the alphabet. */
  method WordContainsInvalidCharacter(t: string) returns (found: bool)
    ensures found <==> exists i :: 0 <= i < |t| && !IsValidCharacter(t[i])
  {
    for i := 0 to |t|
      invariant forall j :: 0 <= j < i ==> IsValidCharacter(t[j])
    {
      ValidCharacterIsListed(t[i]);
      if t[i] !in ValidCharacters {
        return true;
      }
    }
    return false;
  }

  /** Raises `ValueError` when the text is empty or holds a character outside the alphabet. */
  method ValidateWord(t: string) returns (r: Result<()>)
    ensures r.Ok? <==> IsWordText(t)
    ensures r.Err? ==> r.error == ValueError
  {
    var invalid := WordLengthIsInvalid(t);
    if !invalid {
      invalid := WordContainsInvalidCharacter(t);
    }
    if invalid {
      return Err(ValueError);
    }
    return Ok(());
  }

  // ---------------------------------------------------------------------
  // Feature counts

  /** Silent u: occurrences of "que", "qui", "gue" and "gui". */
  function CheckSilentU(t: string): nat
  {
    Count(t, "que") + Count(t, "qui") + Count(t, "gue") + Count(t, "gui")
  }

  /** Silent h: every h minus the h's of "ch"; never negative. */
  function CheckSilentH(t: string): nat
  {
    SilentHIsPositional(t);
    Count(t, "h") - Count(t, "ch")
  }

  function CheckSilentLetters(t: string): nat
  {
    CheckSilentU(t) + CheckSilentH(t)
  }

  /** /s/: every z and s, and c before i or e. */
  function CheckSharedPhonemeS(t: string): nat
  {
    Count(t, "z") + Count(t, "s") + (Count(t, "ci") + Count(t, "ce"))
  }

  /** /b/: every b and v. */
  function CheckSharedPhonemeB(t: string): nat
  {
    Count(t, "b") + Count(t, "v")
  }

  /** /y/: "ll" and every y but a final one. */
  function CheckSharedPhonemeY(t: string): nat
    requires |t| > 0
  {
    YNotFinalIsCount(t);
    var llCount := Count(t, "ll");
    var yCount := Count(t, "y") - (if t[|t| - 1] == 'y' then 1 else 0);
    llCount + yCount
  }

  /** /j/: every j, and g before e or i. */
  function CheckSharedPhonemeJ(t: string): nat
  {
    Count(t, "j") + (Count(t, "ge") + Count(t, "gi"))
  }

  /** /k/: every k and q, and c before a, o or u. */
  function CheckSharedPhonemeK(t: string): nat
  {
    Count(t, "k") + Count(t, "q") + (Count(t, "ca") + Count(t, "co") + Count(t, "cu"))
  }

  function CheckSharedPhonemes(t: string): nat
    requires |t| > 0
  {
    CheckSharedPhonemeS(t) + CheckSharedPhonemeJ(t) + CheckSharedPhonemeK(t)
    + CheckSharedPhonemeY(t) + CheckSharedPhonemeB(t)
  }

  /**
   * The silent letters are the u's strictly between q or g and e or i,
   * and the h's at the start or after any letter but c.
   */
  lemma SilentLettersArePositional(t: string)
    ensures CheckSilentU(t) == Tally(USilent, t)
    ensures CheckSilentH(t) == Tally(HSilent, t)
    ensures CheckSilentLetters(t) == Tally(USilent, t) + Tally(HSilent, t)
  {
    SilentUIsPositional(t);
    SilentHIsPositional(t);
  }

  /**
   * Each shared-phoneme count, stated letter by letter: the c's before e
   * or i, the g's before e or i, the c's before a, o or u and the y's
   * other than a final one.
   */
  lemma SharedPhonemesArePositional(t: string)
    requires |t| > 0
    ensures CheckSharedPhonemeS(t) == Count(t, "z") + Count(t, "s") + Tally(CBeforeEI, t)
    ensures CheckSharedPhonemeJ(t) == Count(t, "j") + Tally(GBeforeEI, t)
    ensures CheckSharedPhonemeK(t) == Count(t, "k") + Count(t, "q") + Tally(CBeforeAOU, t)
    ensures CheckSharedPhonemeY(t) == Count(t, "ll") + Tally(YNotFinal, t)
  {
    TwoLetterRule(CBeforeEI, t, 'i', 'e');
    TwoLetterRule(GBeforeEI, t, 'e', 'i');
    CBeforeAOUIsCount(t);
    YNotFinalIsCount(t);
  }

  // ---------------------------------------------------------------------
  // The total

  /** The features a total can be made of. */
  datatype Feature = LengthFeature | SilentLettersFeature | SharedPhonemesFeature

  function FeatureValue(f: Feature, t: string): nat
    requires |t| > 0
  {
    match f
    case LengthFeature => |t|
    case SilentLettersFeature => CheckSilentLetters(t)
    case SharedPhonemesFeature => CheckSharedPhonemes(t)
  }

  const AllFeatures: set<Feature> := {LengthFeature, SilentLettersFeature, SharedPhonemesFeature}

  /** The sum of the values of the features in `fs`. */
  function FeatureSum(fs: set<Feature>, t: string): nat
    requires |t| > 0
  {
    (if LengthFeature in fs then FeatureValue(LengthFeature, t) else 0)
    + (if SilentLettersFeature in fs then FeatureValue(SilentLettersFeature, t) else 0)
    + (if SharedPhonemesFeature in fs then FeatureValue(SharedPhonemesFeature, t) else 0)
  }

  function NoneCount(cs: seq<Option<nat>>): nat
  {
    if cs == [] then 0 else NoneCount(cs[..|cs| - 1]) + (if cs[|cs| - 1].None? then 1 else 0)
  }

  function SumPresent(cs: seq<Option<nat>>): nat
  {
    if cs == [] then 0
    else SumPresent(cs[..|cs| - 1]) + (if cs[|cs| - 1].Some? then cs[|cs| - 1].value else 0)
  }

  function ValueOrZero(o: Option<nat>): nat
  {
    if o.Some? then o.value else 0
  }

  /**
   * `_calculate_total_difficulty`: `ValueError` when none of the three
   * features is cached, otherwise the sum of the cached ones.
   */
  function CalculateTotalDifficulty(length: Option<nat>, silent: Option<nat>, shared: Option<nat>): (r: Result<nat>)
    ensures r.Err? <==> length.None? && silent.None? && shared.None?
    ensures r.Err? ==> r.error == ValueError
    ensures r.Ok? ==> r.value == ValueOrZero(length) + ValueOrZero(silent) + ValueOrZero(shared)
  {
    var characteristics := [length, silent, shared];
    assert characteristics[..2] == [length, silent] && [length, silent][..1] == [length] && [length][..0] == [];
    assert NoneCount(characteristics) == NoneCount([length]) + NoneCount([silent]) + NoneCount([shared]);
    assert SumPresent([length]) == ValueOrZero(length);
    assert SumPresent([length, silent]) == ValueOrZero(length) + ValueOrZero(silent);
    assert SumPresent(characteristics) == ValueOrZero(length) + ValueOrZero(silent) + ValueOrZero(shared);
    if NoneCount(characteristics) == |characteristics| then Err(ValueError)
    else Ok(SumPresent(characteristics))
  }

  // ---------------------------------------------------------------------
  // The Word object

  /** The four caches of a word, as one value. */
  datatype WordState = WordState(
    length: Option<nat>, silentLetters: Option<nat>, sharedPhonemes: Option<nat>, totalDifficulty: Option<nat>)

  class Word {
    /** The normalised text; never changes after construction. */
    const text: string
    var length: Option<nat>
    var silentLetters: Option<nat>
    var sharedPhonemes: Option<nat>
    var totalDifficulty: Option<nat>

    /**
     * The text is a valid word, each cached feature holds its count, and
     * a cached total is the sum of some non-empty set of features.
     */
    ghost predicate Valid()
      reads this
    {
      && IsWordText(text)
      && (length.Some? ==> length.value == |text|)
      && (silentLetters.Some? ==> silentLetters.value == CheckSilentLetters(text))
      && (sharedPhonemes.Some? ==> sharedPhonemes.value == CheckSharedPhonemes(text))
      && (totalDifficulty.Some? ==> exists fs :: fs != {} && totalDifficulty.value == FeatureSum(fs, text))
    }

    function State(): WordState
      reads this
    {
      WordState(length, silentLetters, sharedPhonemes, totalDifficulty)
    }

    /** The features whose values are cached. */
    function Cached(): set<Feature>
      reads this
    {
      (if length.Some? then {LengthFeature} else {})
      + (if silentLetters.Some? then {SilentLettersFeature} else {})
      + (if sharedPhonemes.Some? then {SharedPhonemesFeature} else {})
    }

    /** Stores an already normalised and validated text, with nothing cached. */
    constructor (t: string)
      requires IsWordText(t)
      ensures Valid() && text == t
      ensures length == None && silentLetters == None && sharedPhonemes == None && totalDifficulty == None
    {
      text := t;
      length := None;
      silentLetters := None;
      sharedPhonemes := None;
      totalDifficulty := None;
    }

    /** The `length` property: computed on first use, then read from the cache. */
    method Length() returns (n: nat)
      requires Valid()
      modifies this
      ensures Valid()
      ensures n == |text| && length == Some(n)
      ensures old(length).Some? ==> n == old(length).value
      ensures silentLetters == old(silentLetters) && sharedPhonemes == old(sharedPhonemes)
      ensures totalDifficulty == old(totalDifficulty)
    {
      if length.None? {
        length := Some(|text|);
      }
      n := length.value;
    }

    /** The `silent_letters` property: computed on first use, then read from the cache. */
    method SilentLetters() returns (n: nat)
      requires Valid()
      modifies this
      ensures Valid()
      ensures n == CheckSilentLetters(text) && silentLetters == Some(n)
      ensures old(silentLetters).Some? ==> n == old(silentLetters).value
      ensures length == old(length) && sharedPhonemes == old(sharedPhonemes)
      ensures totalDifficulty == old(totalDifficulty)
    {
      if silentLetters.None? {
        silentLetters := Some(CheckSilentLetters(text));
      }
      n := silentLetters.value;
    }

    /** The `shared_phonemes` property: computed on first use, then read from the cache. */
    method SharedPhonemes() returns (n: nat)
      requires Valid()
      modifies this
      ensures Valid()
      ensures n == CheckSharedPhonemes(text) && sharedPhonemes == Some(n)
      ensures old(sharedPhonemes).Some? ==> n == old(sharedPhonemes).value
      ensures length == old(length) && silentLetters == old(silentLetters)
      ensures totalDifficulty == old(totalDifficulty)
    {
      if sharedPhonemes.None? {
        sharedPhonemes := Some(CheckSharedPhonemes(text));
      }
      n := sharedPhonemes.value;
    }

    /**
     * The `total_difficulty` property. The first successful call caches
     * the sum of the features cached at that moment; later calls return
     * it even if more features have been cached since. With nothing
     * cached it raises `ValueError` and caches nothing.
     */
    method TotalDifficulty() returns (r: Result<nat>)
      requires Valid()
      modifies this
      ensures Valid()
      ensures old(totalDifficulty).Some? ==> r == Ok(old(totalDifficulty).value)
      ensures old(totalDifficulty).None? ==> r == CalculateTotalDifficulty(length, silentLetters, sharedPhonemes)
      ensures old(totalDifficulty).None? && r.Ok? ==> r.value == FeatureSum(Cached(), text)
      ensures r.Err? <==> old(totalDifficulty).None? && Cached() == {}
      ensures totalDifficulty == (if r.Ok? then Some(r.value) else None)
      ensures length == old(length) && silentLetters == old(silentLetters) && sharedPhonemes == old(sharedPhonemes)
    {
      if totalDifficulty.Some? {
        return Ok(totalDifficulty.value);
      }
      r := CalculateTotalDifficulty(length, silentLetters, sharedPhonemes);
      if r.Ok? {
        assert LengthFeature in Cached() || SilentLettersFeature in Cached() || SharedPhonemesFeature in Cached();
        assert r.value == FeatureSum(Cached(), text);
        totalDifficulty := Some(r.value);
      }
    }
  }

  /**
   * `Word(text)`: normalises the text, raises `ValueError` if it is not
   * a valid word, and otherwise builds a word with nothing cached.
   */
  method NewWord(raw: string) returns (r: Result<Word>)
    ensures r.Ok? <==> IsWordText(NormalizeText(raw))
    ensures r.Err? ==> r.error == ValueError
    ensures r.Ok? ==> fresh(r.value) && r.value.Valid() && r.value.text == NormalizeText(raw)
    ensures r.Ok? ==> r.value.State() == WordState(None, None, None, None)
  {
    var t := NormalizeText(raw);
    var valid := ValidateWord(t);
    if valid.Err? {
      return Err(valid.error);
    }
    var w := new Word(t);
    return Ok(w);
  }

  // ---------------------------------------------------------------------
  // The counts read position by position

  lemma {:induction false} SilentHFrom(t: string, i: nat)
    requires 1 <= i <= |t|
    ensures RuleCountFrom(HSilent, t, i) == Ok(OccFrom(t, "h", i) - OccFrom(t, "ch", i - 1))
    ensures OccFrom(t, "ch", i - 1) <= OccFrom(t, "h", i)
    decreases |t| - i
  {
    MatchAtOne(t, 'h', i - 1);
    MatchAtTwo(t, 'c', 'h', i - 1);
    if i < |t| {
      MatchAtOne(t, 'h', i);
      SilentHFrom(t, i + 1);
    }
  }

  /** `count("h") - count("ch")` counts exactly the h's that are first or follow a letter other than c. */
  lemma SilentHIsPositional(t: string)
    ensures Count(t, "h") - Count(t, "ch") == Tally(HSilent, t)
  {
    CountOneIsOcc(t, 'h');
    CountTwoIsOcc(t, 'c', 'h');
    if |t| > 0 {
      MatchAtOne(t, 'h', 0);
      MatchAtTwo(t, 'c', 'h', 0);
      SilentHFrom(t, 1);
    }
  }

  lemma BorderFreeThree(a: char, b: char, c: char)
    requires a != b && a != c
    ensures BorderFree([a, b, c])
  {
    var p := [a, b, c];
    forall k | 0 < k < 3 ensures p[k..] != p[..3 - k] {
      if k == 1 {
        assert p[1..][0] == b && p[..2][0] == a;
      } else {
        assert p[2..][0] == c && p[..1][0] == a;
      }
    }
  }

  lemma {:induction false} SilentUFrom(t: string, i: nat)
    requires 1 <= i <= |t|
    ensures RuleCountFrom(USilent, t, i)
         == Ok(OccFrom(t, "que", i - 1) + OccFrom(t, "qui", i - 1) + OccFrom(t, "gue", i - 1) + OccFrom(t, "gui", i - 1))
    decreases |t| - i
  {
    MatchAtThree(t, 'q', 'u', 'e', i - 1);
    MatchAtThree(t, 'q', 'u', 'i', i - 1);
    MatchAtThree(t, 'g', 'u', 'e', i - 1);
    MatchAtThree(t, 'g', 'u', 'i', i - 1);
    if i < |t| {
      SilentUFrom(t, i + 1);
    }
  }

  /** The four substring counts of silent u count exactly the u's inside the word between q/g and e/i. */
  lemma SilentUIsPositional(t: string)
    ensures CheckSilentU(t) == Tally(USilent, t)
  {
    BorderFreeThree('q', 'u', 'e');
    BorderFreeThree('q', 'u', 'i');
    BorderFreeThree('g', 'u', 'e');
    BorderFreeThree('g', 'u', 'i');
    CountIsOcc(t, "que", 0);
    CountIsOcc(t, "qui", 0);
    CountIsOcc(t, "gue", 0);
    CountIsOcc(t, "gui", 0);
    if |t| > 0 {
      SilentUFrom(t, 1);
    }
  }

  lemma {:induction false} TwoLetterRuleFrom(r: Rule, t: string, x: char, y: char, i: nat)
    requires r == CBeforeEI || r == GBeforeEI
    requires (x == 'i' && y == 'e') || (x == 'e' && y == 'i')
    ensures RuleCountFrom(r, t, i) == Ok(OccFrom(t, [Letter(r), x], i) + OccFrom(t, [Letter(r), y], i))
    decreases |t| - i
  {
    if i < |t| {
      MatchAtTwo(t, Letter(r), x, i);
      MatchAtTwo(t, Letter(r), y, i);
      TwoLetterRuleFrom(r, t, x, y, i + 1);
    }
  }

  /** c (or g) before i or e, counted as the two two-letter substrings. */
  lemma TwoLetterRule(r: Rule, t: string, x: char, y: char)
    requires r == CBeforeEI || r == GBeforeEI
    requires (x == 'i' && y == 'e') || (x == 'e' && y == 'i')
    ensures Tally(r, t) == Count(t, [Letter(r), x]) + Count(t, [Letter(r), y])
  {
    TwoLetterRuleFrom(r, t, x, y, 0);
    CountTwoIsOcc(t, Letter(r), x);
    CountTwoIsOcc(t, Letter(r), y);
  }

  lemma {:induction false} CBeforeAOUFrom(t: string, i: nat)
    ensures RuleCountFrom(CBeforeAOU, t, i) == Ok(OccFrom(t, "ca", i) + OccFrom(t, "co", i) + OccFrom(t, "cu", i))
    decreases |t| - i
  {
    if i < |t| {
      MatchAtTwo(t, 'c', 'a', i);
      MatchAtTwo(t, 'c', 'o', i);
      MatchAtTwo(t, 'c', 'u', i);
      CBeforeAOUFrom(t, i + 1);
    }
  }

  lemma CBeforeAOUIsCount(t: string)
    ensures Tally(CBeforeAOU, t) == Count(t, "ca") + Count(t, "co") + Count(t, "cu")
  {
    CBeforeAOUFrom(t, 0);
    CountTwoIsOcc(t, 'c', 'a');
    CountTwoIsOcc(t, 'c', 'o');
    CountTwoIsOcc(t, 'c', 'u');
  }

  lemma {:induction false} YNotFinalFrom(t: string, i: nat)
    requires 0 < |t| && i < |t|
    ensures RuleCountFrom(YNotFinal, t, i) == Ok(OccFrom(t, "y", i) - (if t[|t| - 1] == 'y' then 1 else 0))
    ensures t[|t| - 1] == 'y' ==> OccFrom(t, "y", i) >= 1
    decreases |t| - i
  {
    MatchAtOne(t, 'y', i);
    if i + 1 < |t| {
      YNotFinalFrom(t, i + 1);
    } else {
      MatchAtOne(t, 'y', i + 1);
    }
  }

  /** The y-count with one taken off for a final y is the number of y's not at the end, so never negative. */
  lemma YNotFinalIsCount(t: string)
    requires |t| > 0
    ensures Count(t, "y") - (if t[|t| - 1] == 'y' then 1 else 0) == Tally(YNotFinal, t)
  {
    CountOneIsOcc(t, 'y');
    YNotFinalFrom(t, 0);
  }
}
