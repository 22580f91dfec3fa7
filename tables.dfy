/**
 * The per-word dictionaries of the earlier analyzers (wdiff.py,
 * wanalysis.py, analysis.py). Each analysis walks the word list in
 * order and stores `info[word] = score(word)`. A repeated word only
 * overwrites its own entry with the same score. When a score raises,
 * the loop stops, and the dictionary keeps the entries written so far.
 */
module Tables {
  import opened Builtins

  /** A dictionary after the loop: the entries written, and the exception that stopped it, if any. */
  datatype Filled<V> = Filled(table: map<string, V>, error: Option<Error>)

  /** The dictionary that `for word in ws: info[word] = score(word)` leaves behind. */
  function Fill<V>(score: string -> Result<V>, ws: seq<string>): Filled<V>
    decreases |ws|
  {
    if |ws| == 0 then Filled(map[], None)
    else
      var before := Fill(score, ws[..|ws| - 1]);
      var w := ws[|ws| - 1];
      if before.error.Some? then before
      else match score(w)
        case Ok(v) => Filled(before.table[w := v], None)
        case Err(e) => Filled(before.table, Some(e))
  }

  /** The loop's outcome as a Python call sees it: nothing, or the exception. */
  function Outcome<V>(f: Filled<V>): (r: Result<()>)
    ensures r.Ok? <==> f.error.None?
    ensures r.Err? ==> r.error == f.error.value
  {
    if f.error.Some? then Err(f.error.value) else Ok(())
  }

  /**
   * What the dictionary holds: every key is a word of the list with its
   * score; the loop fails exactly when some word's score raises, and
   * then it stops at the first such word, having stored every word
   * before it. Without a failure every word of the list is a key.
   */
  lemma {:induction false} FillMeaning<V>(score: string -> Result<V>, ws: seq<string>)
    ensures forall w :: w in Fill(score, ws).table ==> w in ws && score(w) == Ok(Fill(score, ws).table[w])
    ensures Fill(score, ws).error.None? <==> forall i :: 0 <= i < |ws| ==> score(ws[i]).Ok?
    ensures Fill(score, ws).error.None? ==> forall i :: 0 <= i < |ws| ==> ws[i] in Fill(score, ws).table
    ensures Fill(score, ws).error.Some? ==>
      exists k :: 0 <= k < |ws| && score(ws[k]) == Err(Fill(score, ws).error.value) &&
        (forall i :: 0 <= i < k ==> score(ws[i]).Ok? && ws[i] in Fill(score, ws).table) &&
        (forall w :: w in Fill(score, ws).table ==> w in ws[..k])
  {
    FillEntries(score, ws);
    FillFailure(score, ws);
  }

  /** The entries part of `FillMeaning`. */
  lemma {:induction false} FillEntries<V>(score: string -> Result<V>, ws: seq<string>)
    ensures forall w :: w in Fill(score, ws).table ==> w in ws && score(w) == Ok(Fill(score, ws).table[w])
    ensures Fill(score, ws).error.None? <==> forall i :: 0 <= i < |ws| ==> score(ws[i]).Ok?
    ensures Fill(score, ws).error.None? ==> forall i :: 0 <= i < |ws| ==> ws[i] in Fill(score, ws).table
    decreases |ws|
  {
    if |ws| > 0 {
      var init := ws[..|ws| - 1];
      FillEntries(score, init);
      assert forall i :: 0 <= i < |init| ==> init[i] == ws[i];
      assert forall w :: w in init ==> w in ws;
    }
  }

  /** The failure part of `FillMeaning`: the loop stops at the first failing word. */
  lemma {:induction false} FillFailure<V>(score: string -> Result<V>, ws: seq<string>)
    ensures Fill(score, ws).error.Some? ==>
      exists k :: 0 <= k < |ws| && score(ws[k]) == Err(Fill(score, ws).error.value) &&
        (forall i :: 0 <= i < k ==> score(ws[i]).Ok? && ws[i] in Fill(score, ws).table) &&
        (forall w :: w in Fill(score, ws).table ==> w in ws[..k])
    decreases |ws|
  {
    if |ws| > 0 {
      var init := ws[..|ws| - 1];
      assert forall i :: 0 <= i < |init| ==> init[i] == ws[i];
      if Fill(score, init).error.Some? {
        FillFailure(score, init);
        var k :| 0 <= k < |init| && score(init[k]) == Err(Fill(score, init).error.value) &&
          (forall i :: 0 <= i < k ==> score(init[i]).Ok? && init[i] in Fill(score, init).table) &&
          (forall w :: w in Fill(score, init).table ==> w in init[..k]);
        assert init[..k] == ws[..k];
      } else if Fill(score, ws).error.Some? {
        FillEntries(score, init);
        var k := |ws| - 1;
        assert init == ws[..k];
      }
    }
  }

  /** Once the loop has stopped, the words after the failing one change nothing. */
  lemma {:induction false} FillStops<V>(score: string -> Result<V>, ws: seq<string>, n: nat)
    requires n <= |ws| && Fill(score, ws[..n]).error.Some?
    ensures Fill(score, ws) == Fill(score, ws[..n])
    decreases |ws| - n
  {
    if n < |ws| {
      assert ws[..n + 1][..n] == ws[..n];
      FillStops(score, ws, n + 1);
    } else {
      assert ws[..n] == ws;
    }
  }

  /** One more word, processed while the loop is still running. */
  lemma FillNext<V>(score: string -> Result<V>, ws: seq<string>, n: nat)
    requires n < |ws| && Fill(score, ws[..n]).error.None?
    ensures Fill(score, ws[..n + 1]) ==
      match score(ws[n])
      case Ok(v) => Filled(Fill(score, ws[..n]).table[ws[n] := v], None)
      case Err(e) => Filled(Fill(score, ws[..n]).table, Some(e))
  {
    assert ws[..n + 1][..n] == ws[..n];
  }

  /** Two scores that agree on every word of the list fill the same dictionary. */
  lemma {:induction false} FillSameScores<V>(f: string -> Result<V>, g: string -> Result<V>, ws: seq<string>)
    requires forall w :: w in ws ==> f(w) == g(w)
    ensures Fill(f, ws) == Fill(g, ws)
    decreases |ws|
  {
    if |ws| > 0 {
      assert ws[|ws| - 1] in ws;
      FillSameScores(f, g, ws[..|ws| - 1]);
    }
  }

  /** Python's `sum` over a list of integers. */
  function Sum(xs: seq<int>): int
  {
    if |xs| == 0 then 0 else Sum(xs[..|xs| - 1]) + xs[|xs| - 1]
  }

  /** A row with its own total appended: the last entry is the sum of all the others. */
  function WithTotal(row: seq<int>): (r: seq<int>)
    ensures |r| == |row| + 1 && r[..|row|] == row
    ensures r[|row|] == Sum(r[..|r| - 1])
  {
    row + [Sum(row)]
  }

  /** Every row of a table with its total appended, keys unchanged. */
  function WithTotals(m: map<string, seq<int>>): (r: map<string, seq<int>>)
    ensures r.Keys == m.Keys
    ensures forall w :: w in r ==> |r[w]| == |m[w]| + 1 && r[w][..|m[w]|] == m[w] && r[w][|m[w]|] == Sum(m[w])
  {
    map w | w in m :: WithTotal(m[w])
  }
}
