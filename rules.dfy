/**
 * Letter-by-letter spelling rules, stated position by position.
 *
 * Each rule names a letter and a test on the characters around one
 * occurrence of it. The earlier analyzers (wdiff.py, wanalysis.py,
 * analysis.py) apply these tests literally, index by index, including
 * Python's reading of `word[-1]` as the last character and the
 * `IndexError` raised when a test looks past the end of the word; the
 * current `Word` class counts substrings instead, and its counts are
 * proved equal to the strict forms of the same rules.
 */
module Rules {
  import opened Builtins

  datatype Rule =
    | HSilent             // h at the start, or after any letter but c
    | HSilentWrapped      // h whose `word[i - 1]` is not c: at index 0 that is the last letter
    | USilent             // u strictly inside the word, after q or g and before e or i
    | USilentWrapped      // u whose `word[i - 1]` is q or g and whose `word[i + 1]` is e or i
    | GBeforeEI           // g followed by i or e; a final g is skipped
    | GBeforeEIUnguarded  // g followed by i or e, with no check for a final g
    | CBeforeEI           // c followed by i or e; a final c is skipped
    | CBeforeEIUnguarded  // c followed by i or e, with no check for a final c
    | CBeforeAOU          // c followed by a, o or u; a final c is skipped
    | QBeforeUEI          // q followed by "ue" or "ui"; a final q is skipped
    | YNotFinal           // y anywhere but the last position
    | LBeforeL            // l followed by another l; a final l is skipped

  /** The letter whose occurrences the rule inspects. */
  function Letter(r: Rule): char
  {
    match r
    case HSilent | HSilentWrapped => 'h'
    case USilent | USilentWrapped => 'u'
    case GBeforeEI | GBeforeEIUnguarded => 'g'
    case CBeforeEI | CBeforeEIUnguarded | CBeforeAOU => 'c'
    case QBeforeUEI => 'q'
    case YNotFinal => 'y'
    case LBeforeL => 'l'
  }

  predicate IsEOrI(c: char) { c == 'e' || c == 'i' }

  /**
   * The rule's test on the occurrence at index `i`, evaluated as the
   * Python code does: `and`/`or` short-circuit from left to right, and
   * an index at or past the end raises `IndexError`.
   */
  function Judge(r: Rule, w: string, i: nat): Result<bool>
    requires i < |w|
  {
    var last := i == |w| - 1;
    match r
    case HSilent => Ok(i == 0 || w[i - 1] != 'c')
    case HSilentWrapped => Ok(Previous(w, i) != 'c')
    case USilent => Ok(0 < i && !last && (w[i - 1] == 'q' || w[i - 1] == 'g') && IsEOrI(w[i + 1]))
    case USilentWrapped =>
      if Previous(w, i) == 'q' || Previous(w, i) == 'g' then
        (if last then Err(IndexError) else Ok(IsEOrI(w[i + 1])))
      else Ok(false)
    case GBeforeEI => Ok(!last && IsEOrI(w[i + 1]))
    case CBeforeEI => Ok(!last && IsEOrI(w[i + 1]))
    case GBeforeEIUnguarded | CBeforeEIUnguarded =>
      if last then Err(IndexError) else Ok(IsEOrI(w[i + 1]))
    case CBeforeAOU => Ok(!last && (w[i + 1] == 'a' || w[i + 1] == 'o' || w[i + 1] == 'u'))
    case QBeforeUEI =>
      if last || w[i + 1] != 'u' then Ok(false)
      else if i + 2 == |w| then Err(IndexError)
      else Ok(IsEOrI(w[i + 2]))
    case YNotFinal => Ok(!last)
    case LBeforeL => Ok(!last && w[i + 1] == 'l')
  }

  /** The rule can raise `IndexError` on some word. */
  predicate MayFail(r: Rule)
  {
    r == USilentWrapped || r == QBeforeUEI || r == GBeforeEIUnguarded || r == CBeforeEIUnguarded
  }

  /** One verdict followed by the count of the rest: an exception stops the count. */
  function Step(verdict: Result<bool>, rest: Result<nat>): Result<nat>
  {
    match verdict
    case Err(e) => Err(e)
    case Ok(b) => Plus(if b then 1 else 0, rest)
  }

  /**
   * The number of occurrences at index `i` or later that pass the rule,
   * or the exception raised by the first occurrence whose test fails.
   */
  function RuleCountFrom(r: Rule, w: string, i: nat): Result<nat>
    decreases |w| - i
  {
    if i >= |w| then Ok(0)
    else if w[i] != Letter(r) then RuleCountFrom(r, w, i + 1)
    else Step(Judge(r, w, i), RuleCountFrom(r, w, i + 1))
  }

  function RuleCount(r: Rule, w: string): Result<nat>
  {
    RuleCountFrom(r, w, 0)
  }

  lemma {:induction false} NeverFailsFrom(r: Rule, w: string, i: nat)
    requires !MayFail(r)
    ensures RuleCountFrom(r, w, i).Ok?
    decreases |w| - i
  {
    if i < |w| {
      NeverFailsFrom(r, w, i + 1);
    }
  }

  /** The count of a rule that cannot raise. */
  function Tally(r: Rule, w: string): (n: nat)
    requires !MayFail(r)
    ensures RuleCount(r, w) == Ok(n)
  {
    NeverFailsFrom(r, w, 0);
    RuleCount(r, w).value
  }

  /** A rule passes at most every occurrence of its letter. */
  lemma {:induction false} RuleCountAtMostLetters(r: Rule, w: string, i: nat)
    requires RuleCountFrom(r, w, i).Ok?
    ensures RuleCountFrom(r, w, i).value <= OccFrom(w, [Letter(r)], i)
    decreases |w| - i
  {
    if i < |w| {
      MatchAtOne(w, Letter(r), i);
      RuleCountAtMostLetters(r, w, i + 1);
    }
  }

  /** A word without the rule's letter passes nothing and raises nothing. */
  lemma LetterAbsent(r: Rule, w: string)
    requires Letter(r) !in w
    ensures RuleCount(r, w) == Ok(0)
  {
    RuleCountSkip(r, w, 0, |w|);
  }

  /** Letters before index `j` that the rule does not inspect change nothing. */
  lemma {:induction false} RuleCountSkip(r: Rule, w: string, i: nat, j: nat)
    requires i <= j <= |w|
    requires forall k :: i <= k < j ==> w[k] != Letter(r)
    ensures RuleCountFrom(r, w, i) == RuleCountFrom(r, w, j)
    decreases j - i
  {
    if i < j {
      RuleCountSkip(r, w, i + 1, j);
    }
  }
}
