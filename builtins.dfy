/**
 * The few pieces of Python's built-in string behaviour that the word
 * scorers rely on: `str.count`, `str.find`, `in`, `str.strip`,
 * `str.lower` and `str.upper`, together with the exceptions the scorers
 * can raise, modelled as values.
 */
module Builtins {

  /** The Python exceptions that the scoring code can raise. */
  datatype Error = ValueError | IndexError | KeyError | AttributeError | UnboundLocalError | NameError

  datatype Option<T> = None | Some(value: T)

  /** A value, or the exception raised while computing it. */
  datatype Result<T> = Ok(value: T) | Err(error: Error)

  /** Reading an attribute: its value once assigned, `AttributeError` before that. */
  function Attribute<T>(o: Option<T>): (r: Result<T>)
    ensures r.Ok? <==> o.Some?
    ensures r.Ok? ==> r.value == o.value
    ensures r.Err? ==> r.error == AttributeError
  {
    if o.Some? then Ok(o.value) else Err(AttributeError)
  }

  /** Adds `k` to a successful count and lets an exception through unchanged. */
  function Plus(k: nat, r: Result<nat>): Result<nat>
  {
    match r
    case Ok(n) => Ok(k + n)
    case Err(e) => Err(e)
  }

  /** Helper: two pending additions fold into one. */
  lemma PlusPlus(a: nat, b: nat, r: Result<nat>)
    ensures Plus(a, Plus(b, r)) == Plus(a + b, r)
  {
  }

  /** Python's `a + b` on two counts, evaluated left to right: the first exception wins. */
  function Add(a: Result<nat>, b: Result<nat>): Result<nat>
  {
    match a
    case Err(e) => Err(e)
    case Ok(n) => Plus(n, b)
  }

  // ---------------------------------------------------------------------
  // Occurrences of a pattern

  /** `p` occurs in `s` starting at index `i`. */
  predicate MatchAt(s: string, p: string, i: nat)
  {
    i + |p| <= |s| && s[i..i + |p|] == p
  }

  /** Helpers: a match of a one-, two- or three-letter pattern, letter by letter. */
  lemma MatchAtOne(s: string, c: char, i: nat)
    ensures MatchAt(s, [c], i) <==> i < |s| && s[i] == c
  {
    if i < |s| {
      assert s[i..i + 1] == [s[i]];
    }
  }

  lemma MatchAtTwo(s: string, a: char, b: char, i: nat)
    ensures MatchAt(s, [a, b], i) <==> i + 1 < |s| && s[i] == a && s[i + 1] == b
  {
    if i + 1 < |s| {
      assert s[i..i + 2] == [s[i], s[i + 1]];
    }
  }

  lemma MatchAtThree(s: string, a: char, b: char, c: char, i: nat)
    ensures MatchAt(s, [a, b, c], i) <==> i + 2 < |s| && s[i] == a && s[i + 1] == b && s[i + 2] == c
  {
    if i + 2 < |s| {
      assert s[i..i + 3] == [s[i], s[i + 1], s[i + 2]];
    }
  }

  /** The number of indices `j >= i` at which `p` occurs, overlapping occurrences included. */
  function OccFrom(s: string, p: string, i: nat): nat
    decreases |s| - i
  {
    if i >= |s| then 0
    else (if MatchAt(s, p, i) then 1 else 0) + OccFrom(s, p, i + 1)
  }

  /** `str.count(p)` from index `i` on: a left-to-right scan that skips over each match found. */
  function CountFrom(s: string, p: string, i: nat): nat
    requires |p| > 0
    decreases |s| - i
  {
    if i + |p| > |s| then 0
    else if MatchAt(s, p, i) then 1 + CountFrom(s, p, i + |p|)
    else CountFrom(s, p, i + 1)
  }

  /** Python's `s.count(p)` for a non-empty pattern: non-overlapping occurrences. */
  function Count(s: string, p: string): nat
    requires |p| > 0
  {
    CountFrom(s, p, 0)
  }

  /** No proper suffix of `p` is also a prefix of it, so two occurrences can never overlap. */
  predicate BorderFree(p: string)
  {
    forall k :: 0 < k < |p| ==> p[k..] != p[..|p| - k]
  }

  lemma NoOverlap(s: string, p: string, i: nat, k: nat)
    requires BorderFree(p) && MatchAt(s, p, i) && 0 < k < |p|
    ensures !MatchAt(s, p, i + k)
  {
    assert s[i..i + |p|][k..] == s[i + k..i + |p|];
  }

  lemma {:induction false} OccFromTooShort(s: string, p: string, i: nat)
    requires i + |p| > |s|
    ensures OccFrom(s, p, i) == 0
    decreases |s| - i
  {
    if i < |s| {
      OccFromTooShort(s, p, i + 1);
    }
  }

  lemma {:induction false} OccFromSkip(s: string, p: string, i: nat, j: nat)
    requires i <= j
    requires forall k :: i <= k < j ==> !MatchAt(s, p, k)
    ensures OccFrom(s, p, i) == OccFrom(s, p, j)
    decreases j - i
  {
    if i < j {
      OccFromSkip(s, p, i + 1, j);
      if i >= |s| {
        OccFromBeyond(s, p, i + 1);
        OccFromBeyond(s, p, j);
      }
    }
  }

  /** Helper: no occurrence starts past the end. */
  lemma OccFromBeyond(s: string, p: string, i: nat)
    requires i >= |s|
    ensures OccFrom(s, p, i) == 0
  {
  }

  /**
   * For a pattern whose occurrences cannot overlap, `str.count` counts
   * every occurrence.
   */
  lemma {:induction false} CountIsOcc(s: string, p: string, i: nat)
    requires |p| > 0 && BorderFree(p)
    ensures CountFrom(s, p, i) == OccFrom(s, p, i)
    decreases |s| - i
  {
    if i + |p| > |s| {
      OccFromTooShort(s, p, i);
    } else if MatchAt(s, p, i) {
      CountIsOcc(s, p, i + |p|);
      forall k | i + 1 <= k < i + |p| ensures !MatchAt(s, p, k) {
        NoOverlap(s, p, i, k - i);
      }
      OccFromSkip(s, p, i + 1, i + |p|);
    } else {
      CountIsOcc(s, p, i + 1);
    }
  }

  lemma CountOneIsOcc(s: string, c: char)
    ensures Count(s, [c]) == OccFrom(s, [c], 0)
  {
    CountIsOcc(s, [c], 0);
  }

  lemma CountTwoIsOcc(s: string, a: char, b: char)
    requires a != b
    ensures Count(s, [a, b]) == OccFrom(s, [a, b], 0)
  {
    assert BorderFree([a, b]) by {
      forall k | 0 < k < 2 ensures [a, b][k..] != [a, b][..2 - k] {
        assert [a, b][1..] == [b] && [a, b][..1] == [a];
      }
    }
    CountIsOcc(s, [a, b], 0);
  }

  lemma {:induction false} OccOneCountsLetter(s: string, c: char, i: nat)
    ensures OccFrom(s, [c], i) > 0 <==> exists j :: i <= j < |s| && s[j] == c
    decreases |s| - i
  {
    if i < |s| {
      MatchAtOne(s, c, i);
      OccOneCountsLetter(s, c, i + 1);
    }
  }

  /** `c in s` holds exactly when `s.count(c)` is positive. */
  lemma ContainsIffCount(s: string, c: char)
    ensures c in s <==> Count(s, [c]) > 0
  {
    CountOneIsOcc(s, c);
    OccOneCountsLetter(s, c, 0);
  }

  // ---------------------------------------------------------------------
  // Searching

  /** Python's `s.find(c, start)`: the first index at or after `start` holding `c`, or -1. */
  function Find(s: string, c: char, start: nat): (r: int)
    ensures r == -1 || (start <= r < |s| && s[r] == c)
    ensures r == -1 ==> forall j :: start <= j < |s| ==> s[j] != c
    ensures r != -1 ==> forall j :: start <= j < r ==> s[j] != c
    decreases |s| - start
  {
    if start >= |s| then -1
    else if s[start] == c then start
    else Find(s, c, start + 1)
  }

  /** Python's `s[i - 1]` for `0 <= i < |s|`: at index 0 it reads the last character. */
  function Previous(s: string, i: nat): char
    requires i < |s|
  {
    if i == 0 then s[|s| - 1] else s[i - 1]
  }

  // ---------------------------------------------------------------------
  // Case and whitespace

  /** The characters for which Python's `str.isspace` holds. */
  predicate IsWhitespace(c: char)
  {
    || c == ' '
    || '\t' <= c <= '\r'
    || '\U{1C}' <= c <= '\U{1F}'
    || c == '\U{85}' || c == '\U{A0}' || c == '\U{1680}'
    || '\U{2000}' <= c <= '\U{200A}'
    || c == '\U{2028}' || c == '\U{2029}' || c == '\U{202F}' || c == '\U{205F}' || c == '\U{3000}'
  }

  /** Python's `s.lstrip()`. */
  function StripLeft(s: string): string
  {
    if |s| > 0 && IsWhitespace(s[0]) then StripLeft(s[1..]) else s
  }

  /** Python's `s.rstrip()`. */
  function StripRight(s: string): string
  {
    if |s| > 0 && IsWhitespace(s[|s| - 1]) then StripRight(s[..|s| - 1]) else s
  }

  /** `lstrip` drops a prefix made of whitespace only, and what is left does not start with whitespace. */
  lemma {:induction false} StripLeftShape(s: string)
    ensures |StripLeft(s)| <= |s| && StripLeft(s) == s[|s| - |StripLeft(s)|..]
    ensures |StripLeft(s)| > 0 ==> !IsWhitespace(StripLeft(s)[0])
    ensures forall j :: 0 <= j < |s| - |StripLeft(s)| ==> IsWhitespace(s[j])
  {
    if |s| > 0 && IsWhitespace(s[0]) {
      var tail := s[1..];
      StripLeftShape(tail);
      assert forall j :: 0 <= j < |tail| ==> tail[j] == s[j + 1];
      assert tail[|tail| - |StripLeft(tail)|..] == s[|s| - |StripLeft(tail)|..];
    }
  }

  /** `rstrip` drops a suffix made of whitespace only, and what is left does not end with whitespace. */
  lemma {:induction false} StripRightShape(s: string)
    ensures |StripRight(s)| <= |s| && StripRight(s) == s[..|StripRight(s)|]
    ensures |StripRight(s)| > 0 ==> !IsWhitespace(StripRight(s)[|StripRight(s)| - 1])
    ensures forall j :: |StripRight(s)| <= j < |s| ==> IsWhitespace(s[j])
  {
    if |s| > 0 && IsWhitespace(s[|s| - 1]) {
      var init := s[..|s| - 1];
      StripRightShape(init);
      assert forall j :: 0 <= j < |init| ==> init[j] == s[j];
      assert init[..|StripRight(init)|] == s[..|StripRight(init)|];
    }
  }

  /** Python's `s.strip()`: leading and trailing whitespace removed. */
  function Strip(s: string): string
  {
    StripRight(StripLeft(s))
  }

  /** `str.lower` on one character: the ASCII and Latin-1 capitals move to their small letters. */
  function LowerChar(c: char): (d: char)
    ensures IsWhitespace(d) <==> IsWhitespace(c)
  {
    if 'A' <= c <= 'Z' || ('\U{C0}' <= c <= '\U{DE}' && c != '\U{D7}') then (c as int + 32) as char
    else c
  }

  function Lower(s: string): (r: string)
    ensures |r| == |s|
  {
    seq(|s|, i requires 0 <= i < |s| => LowerChar(s[i]))
  }

  /** `str.upper` on one character: the ASCII and Latin-1 small letters move to their capitals. */
  function UpperChar(c: char): char
  {
    if 'a' <= c <= 'z' || ('\U{E0}' <= c <= '\U{FE}' && c != '\U{F7}') then (c as int - 32) as char
    else c
  }
}
