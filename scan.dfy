/**
 * The two loop shapes with which the earlier analyzers (wdiff.py,
 * wanalysis.py and analysis.py) apply a rule to a word.
 *
 * Both start from `word.count(letter)`, which says how many times
 * `word.find(letter, start)` will succeed, and restart each search one
 * past the previous hit. The silent-letter counters judge each hit as
 * soon as it is found; the swappable-letter counters first collect the
 * positions in a list and judge them in a second loop. Both are proved
 * to compute `RuleCount`, the rule applied index by index.
 */
module Scan {
  import opened Builtins
  import opened Rules

  /** Every index in `ps` is below `n`. */
  predicate Below(ps: seq<nat>, n: nat)
  {
    forall k :: 0 <= k < |ps| ==> ps[k] < n
  }

  /** The indices at or after `i` that hold `c`, in increasing order. */
  function Positions(w: string, c: char, i: nat): (ps: seq<nat>)
    ensures Below(ps, |w|)
    decreases |w| - i
  {
    if i >= |w| then []
    else (if w[i] == c then [i] else []) + Positions(w, c, i + 1)
  }

  /** Each position is an index at or after `i` holding `c`. */
  lemma {:induction false} PositionsHoldLetter(w: string, c: char, i: nat)
    ensures forall k :: 0 <= k < |Positions(w, c, i)| ==> i <= Positions(w, c, i)[k] && w[Positions(w, c, i)[k]] == c
    decreases |w| - i
  {
    if i < |w| {
      PositionsHoldLetter(w, c, i + 1);
      var rest := Positions(w, c, i + 1);
      if w[i] == c {
        assert Positions(w, c, i) == [i] + rest;
      } else {
        assert Positions(w, c, i) == rest;
      }
    }
  }

  /** The positions increase strictly, so none is listed twice. */
  lemma {:induction false} PositionsIncrease(w: string, c: char, i: nat)
    ensures forall k, l :: 0 <= k < l < |Positions(w, c, i)| ==> Positions(w, c, i)[k] < Positions(w, c, i)[l]
    decreases |w| - i
  {
    if i < |w| {
      PositionsIncrease(w, c, i + 1);
      PositionsHoldLetter(w, c, i + 1);
      var rest := Positions(w, c, i + 1);
      if w[i] == c {
        var ps := [i] + rest;
        assert Positions(w, c, i) == ps;
        forall k, l | 0 <= k < l < |ps| ensures ps[k] < ps[l] {
          if k > 0 {
            assert ps[k] == rest[k - 1] && ps[l] == rest[l - 1];
          } else {
            assert ps[l] == rest[l - 1];
          }
        }
      } else {
        assert Positions(w, c, i) == rest;
      }
    }
  }

  /** Every index at or after `i` holding `c` is a position. */
  lemma {:induction false} PositionsComplete(w: string, c: char, i: nat)
    ensures forall j :: i <= j < |w| && w[j] == c ==> j in Positions(w, c, i)
    decreases |w| - i
  {
    if i < |w| {
      PositionsComplete(w, c, i + 1);
      var rest := Positions(w, c, i + 1);
      if w[i] == c {
        assert Positions(w, c, i) == [i] + rest;
      } else {
        assert Positions(w, c, i) == rest;
      }
    }
  }

  /** There are as many positions as occurrences of `c`. */
  lemma {:induction false} PositionsCount(w: string, c: char, i: nat)
    ensures |Positions(w, c, i)| == OccFrom(w, [c], i)
    decreases |w| - i
  {
    if i < |w| {
      PositionsCount(w, c, i + 1);
      MatchAtOne(w, c, i);
    }
  }

  /**
   * The rule's test applied to the indices of `ps` from the `k`-th on,
   * in turn; the first exception stops the scan.
   */
  function JudgeFrom(r: Rule, w: string, ps: seq<nat>, k: nat): Result<nat>
    requires Below(ps, |w|)
    decreases |ps| - k
  {
    if k >= |ps| then Ok(0)
    else Step(Judge(r, w, ps[k]), JudgeFrom(r, w, ps, k + 1))
  }

  lemma {:induction false} JudgeFromShift(r: Rule, w: string, x: nat, ps: seq<nat>, k: nat)
    requires Below([x] + ps, |w|) && Below(ps, |w|) && k <= |ps|
    ensures JudgeFrom(r, w, [x] + ps, k + 1) == JudgeFrom(r, w, ps, k)
    decreases |ps| - k
  {
    if k < |ps| {
      JudgeFromShift(r, w, x, ps, k + 1);
      assert ([x] + ps)[k + 1] == ps[k];
    }
  }

  /** Judging only the positions of the rule's letter is the same as judging every index. */
  lemma {:induction false} JudgePositions(r: Rule, w: string, i: nat)
    ensures JudgeFrom(r, w, Positions(w, Letter(r), i), 0) == RuleCountFrom(r, w, i)
    decreases |w| - i
  {
    if i < |w| {
      JudgePositions(r, w, i + 1);
      var rest := Positions(w, Letter(r), i + 1);
      if w[i] == Letter(r) {
        JudgeFromShift(r, w, i, rest, 0);
      } else {
        assert Positions(w, Letter(r), i) == rest;
      }
    }
  }

  /** Adding one more verdict to a running count. */
  lemma AddVerdict(count: nat, verdict: Result<bool>, rest: Result<nat>)
    ensures Plus(count, Step(verdict, rest)) ==
      if verdict.Err? then Err(verdict.error) else Plus(count + (if verdict.value then 1 else 0), rest)
  {
    if verdict.Ok? {
      PlusPlus(count, if verdict.value then 1 else 0, rest);
    }
  }

  lemma RuleCountNext(r: Rule, w: string, i: nat, count: nat)
    requires i < |w| && w[i] == Letter(r)
    ensures Plus(count, RuleCountFrom(r, w, i)) ==
      if Judge(r, w, i).Err? then Err(Judge(r, w, i).error)
      else Plus(count + (if Judge(r, w, i).value then 1 else 0), RuleCountFrom(r, w, i + 1))
  {
    AddVerdict(count, Judge(r, w, i), RuleCountFrom(r, w, i + 1));
  }

  /** `find` from `start` fails exactly when no position is left, and otherwise returns the first one. */
  lemma {:induction false} FindStartsPositions(w: string, c: char, start: nat)
    ensures Positions(w, c, start) == [] <==> Find(w, c, start) == -1
    ensures Find(w, c, start) != -1 ==>
      Positions(w, c, start) == [Find(w, c, start) as nat] + Positions(w, c, Find(w, c, start) + 1)
    decreases |w| - start
  {
    if start < |w| {
      if w[start] == c {
        assert Positions(w, c, start) == [start] + Positions(w, c, start + 1);
      } else {
        FindStartsPositions(w, c, start + 1);
        assert Positions(w, c, start) == Positions(w, c, start + 1);
      }
    }
  }

  /**
   * The first loop of the swappable-letter counters: as many `find`
   * calls as `count` reports, collecting each hit.
   */
  method CollectPositions(w: string, c: char) returns (ps: seq<nat>)
    ensures ps == Positions(w, c, 0)
  {
    CountOneIsOcc(w, c);
    PositionsCount(w, c, 0);
    var remaining := Count(w, [c]);
    ps := [];
    var start: nat := 0;
    while remaining > 0
      invariant remaining == |Positions(w, c, start)|
      invariant ps + Positions(w, c, start) == Positions(w, c, 0)
      decreases remaining
    {
      var pos := Find(w, c, start);
      FindStartsPositions(w, c, start);
      assert Positions(w, c, start) == [pos as nat] + Positions(w, c, pos + 1);
      assert (ps + [pos as nat]) + Positions(w, c, pos + 1) == ps + Positions(w, c, start);
      ps := ps + [pos as nat];
      start := pos + 1;
      remaining := remaining - 1;
    }
  }

  /**
   * The swappable-letter counters: collect the positions of the rule's
   * letter, then judge them in order.
   */
  method CountAtPositions(r: Rule, w: string) returns (res: Result<nat>)
    ensures res == RuleCount(r, w)
  {
    var ps := CollectPositions(w, Letter(r));
    var count := 0;
    for k := 0 to |ps|
      invariant JudgeFrom(r, w, ps, 0) == Plus(count, JudgeFrom(r, w, ps, k))
    {
      var verdict := Judge(r, w, ps[k]);
      AddVerdict(count, verdict, JudgeFrom(r, w, ps, k + 1));
      if verdict.Err? {
        JudgePositions(r, w, 0);
        return Err(verdict.error);
      }
      if verdict.value {
        count := count + 1;
      }
    }
    JudgePositions(r, w, 0);
    return Ok(count);
  }

  /**
   * The silent-letter counters: as many `find` calls as `count` reports,
   * judging each hit as it is found. Under `letter in word` nothing is
   * searched.
   */
  method CountByFind(r: Rule, w: string) returns (res: Result<nat>)
    ensures res == RuleCount(r, w)
  {
    var c := Letter(r);
    JudgePositions(r, w, 0);
    CountOneIsOcc(w, c);
    ContainsIffCount(w, c);
    PositionsCount(w, c, 0);
    var count := 0;
    if c in w {
      var remaining := Count(w, [c]);
      var start: nat := 0;
      while remaining > 0
        invariant remaining == |Positions(w, c, start)|
        invariant RuleCount(r, w) == Plus(count, RuleCountFrom(r, w, start))
        decreases remaining
      {
        var pos := Find(w, c, start);
        FindStartsPositions(w, c, start);
        RuleCountSkip(r, w, start, pos);
        var verdict := Judge(r, w, pos);
        RuleCountNext(r, w, pos as nat, count);
        if verdict.Err? {
          return Err(verdict.error);
        }
        if verdict.value {
          count := count + 1;
        }
        remaining := remaining - 1;
        start := pos + 1;
      }
      JudgePositions(r, w, start);
    }
    return Ok(count);
  }
}
