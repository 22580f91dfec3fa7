/**
 * The `Analyzer` of src/wdiff/analyzer.py: a results table with one row
 * per word, to which each analysis adds a column read off the word
 * objects.
 *
 * The pandas DataFrame is modelled as its `word_objs` column, which never
 * changes after construction and is never published, plus the ordered
 * list of the other columns. Assigning a column that already exists
 * replaces it where it stands; a new one is appended at the end.
 * wdiff/analyzer.py holds the same class without `run_all_analyses`.
 */
module Analyzer {
  import opened Builtins
  import opened Word

  /** The word properties `_get_property_from_words` reads; each names the column it fills. */
  datatype Property = TextProperty | LengthProperty | SilentLettersProperty | SharedPhonemesProperty | TotalDifficultyProperty

  function Name(p: Property): string
  {
    match p
    case TextProperty => "text"
    case LengthProperty => "length"
    case SilentLettersProperty => "silent_letters"
    case SharedPhonemesProperty => "shared_phonemes"
    case TotalDifficultyProperty => "total_difficulty"
  }

  datatype Value = Text(s: string) | Number(n: nat)

  datatype Column = Column(name: string, values: seq<Value>)

  /** `results[name] = values`: replaces the column called `name` in place, or appends it. */
  function WithColumn(cols: seq<Column>, c: Column): (r: seq<Column>)
    ensures |r| == |cols| || |r| == |cols| + 1
  {
    if cols == [] then [c]
    else if cols[0].name == c.name then [c] + cols[1..]
    else [cols[0]] + WithColumn(cols[1..], c)
  }

  /** The values of the first column called `name`. */
  function Lookup(cols: seq<Column>, name: string): Option<seq<Value>>
  {
    if cols == [] then None
    else if cols[0].name == name then Some(cols[0].values)
    else Lookup(cols[1..], name)
  }

  function Names(cols: seq<Column>): seq<string>
  {
    if cols == [] then [] else [cols[0].name] + Names(cols[1..])
  }

  /**
   * Setting a column makes a lookup of its name return the new values,
   * leaves every other lookup as it was, and keeps the column order,
   * appending the name only when it is new.
   */
  lemma {:induction false} WithColumnSets(cols: seq<Column>, c: Column, name: string)
    ensures Lookup(WithColumn(cols, c), name) == if name == c.name then Some(c.values) else Lookup(cols, name)
    ensures Names(WithColumn(cols, c)) == if c.name in Names(cols) then Names(cols) else Names(cols) + [c.name]
  {
    if cols != [] && cols[0].name != c.name {
      WithColumnSets(cols[1..], c, name);
    }
  }

  /**
   * Setting a column a second time under the same name is the same as
   * setting it once to the later values: the column keeps its place, so
   * re-running a check leaves the table as one run would.
   */
  lemma {:induction false} WithColumnTwice(cols: seq<Column>, c: Column, d: Column)
    requires c.name == d.name
    ensures WithColumn(WithColumn(cols, c), d) == WithColumn(cols, d)
  {
    if cols != [] && cols[0].name != c.name {
      WithColumnTwice(cols[1..], c, d);
      assert WithColumn(cols, c)[1..] == WithColumn(cols[1..], c);
    }
  }

  /**
   * Reading property `p` of a word with text `t` and caches `s`: the
   * value returned and the caches afterwards. Only the total can fail.
   */
  function Access(p: Property, t: string, s: WordState): (Result<Value>, WordState)
    requires |t| > 0
  {
    match p
    case TextProperty => (Ok(Text(t)), s)
    case LengthProperty => (Ok(Number(|t|)), s.(length := Some(|t|)))
    case SilentLettersProperty =>
      (Ok(Number(CheckSilentLetters(t))), s.(silentLetters := Some(CheckSilentLetters(t))))
    case SharedPhonemesProperty =>
      (Ok(Number(CheckSharedPhonemes(t))), s.(sharedPhonemes := Some(CheckSharedPhonemes(t))))
    case TotalDifficultyProperty =>
      if s.totalDifficulty.Some? then (Ok(Number(s.totalDifficulty.value)), s)
      else
        match CalculateTotalDifficulty(s.length, s.silentLetters, s.sharedPhonemes)
        case Err(e) => (Err(e), s)
        case Ok(v) => (Ok(Number(v)), s.(totalDifficulty := Some(v)))
  }

  /** A read fails only for the total of a word with nothing cached, and then changes nothing. */
  lemma AccessFails(p: Property, t: string, s: WordState)
    requires |t| > 0
    ensures Access(p, t, s).0.Err? <==>
      p == TotalDifficultyProperty && s == WordState(None, None, None, None)
    ensures Access(p, t, s).0.Err? ==> Access(p, t, s) == (Err(ValueError), s)
  {
  }

  /** `getattr(word, property)` on one word object. */
  method Read(p: Property, w: Word) returns (r: Result<Value>)
    requires w.Valid()
    modifies w
    ensures w.Valid()
    ensures (r, w.State()) == Access(p, w.text, old(w.State()))
  {
    match p
    case TextProperty =>
      r := Ok(Text(w.text));
    case LengthProperty =>
      var n := w.Length();
      r := Ok(Number(n));
    case SilentLettersProperty =>
      var n := w.SilentLetters();
      r := Ok(Number(n));
    case SharedPhonemesProperty =>
      var n := w.SharedPhonemes();
      r := Ok(Number(n));
    case TotalDifficultyProperty =>
      var total := w.TotalDifficulty();
      r := if total.Ok? then Ok(Number(total.value)) else Err(total.error);
  }

  /** Each of the words is valid and appears once. */
  ghost predicate Distinct(ws: seq<Word>)
    reads set w | w in ws
  {
    && (forall j :: 0 <= j < |ws| ==> ws[j].Valid())
    && (forall j, k :: 0 <= j < k < |ws| ==> ws[j] != ws[k])
  }

  /** Each of the first `n` texts normalises to a valid word. */
  predicate AllAccepted(texts: seq<string>, n: nat)
    requires n <= |texts|
  {
    n == 0 || (AllAccepted(texts, n - 1) && IsWordText(NormalizeText(texts[n - 1])))
  }

  lemma {:induction false} AllAcceptedMeans(texts: seq<string>, n: nat, k: nat)
    requires n <= |texts| && AllAccepted(texts, n) && k < n
    ensures IsWordText(NormalizeText(texts[k]))
  {
    if k < n - 1 {
      AllAcceptedMeans(texts, n - 1, k);
    }
  }

  /** Every text normalised, in order. */
  function NormalizeAll(texts: seq<string>): (ns: seq<string>)
    ensures |ns| == |texts|
  {
    if texts == [] then [] else NormalizeAll(texts[..|texts| - 1]) + [NormalizeText(texts[|texts| - 1])]
  }

  lemma {:induction false} NormalizeAllAt(texts: seq<string>, k: nat)
    requires k < |texts|
    ensures NormalizeAll(texts)[k] == NormalizeText(texts[k])
  {
    var init := texts[..|texts| - 1];
    if k < |texts| - 1 {
      NormalizeAllAt(init, k);
      assert init[k] == texts[k];
    }
  }

  /**
   * `_create_word_objs`: one fresh word per text, in order; the first
   * text that is not a valid word raises `ValueError`.
   */
  method CreateWordObjs(texts: seq<string>) returns (r: Result<seq<Word>>)
    ensures r.Err? <==> exists i :: 0 <= i < |texts| && !IsWordText(NormalizeText(texts[i]))
    ensures r.Err? ==> r.error == ValueError
    ensures r.Ok? ==> |r.value| == |texts| && Distinct(r.value)
    ensures r.Ok? ==> forall i :: 0 <= i < |texts| ==> fresh(r.value[i])
    ensures r.Ok? ==> forall i :: 0 <= i < |texts| ==>
      r.value[i].text == NormalizeText(texts[i]) && r.value[i].State() == WordState(None, None, None, None)
  {
    var objs: seq<Word> := [];
    for i := 0 to |texts|
      invariant |objs| == i
      invariant forall k :: 0 <= k < i ==> objs[k].Valid()
      invariant forall k, j :: 0 <= k < j < i ==> objs[k] != objs[j]
      invariant AllAccepted(texts, i)
      invariant forall k :: 0 <= k < i ==> fresh(objs[k])
      invariant forall k :: 0 <= k < i ==> objs[k].text == NormalizeAll(texts)[k]
      invariant forall k :: 0 <= k < i ==> objs[k].State() == WordState(None, None, None, None)
    {
      var w := NewWord(texts[i]);
      if w.Err? {
        assert !IsWordText(NormalizeText(texts[i]));
        return Err(w.error);
      }
      NormalizeAllAt(texts, i);
      objs := objs + [w.value];
    }
    forall k | 0 <= k < |texts| ensures IsWordText(NormalizeText(texts[k])) && objs[k].text == NormalizeText(texts[k]) {
      AllAcceptedMeans(texts, |texts|, k);
      NormalizeAllAt(texts, k);
    }
    return Ok(objs);
  }

  /** Every column has `n` values. */
  predicate Rows(cols: seq<Column>, n: nat)
  {
    forall c :: c in cols ==> |c.values| == n
  }

  /** The values `Access` returns for a property that only looks at the text. */
  function TextValues(p: Property, ts: seq<string>): (vs: seq<Value>)
    requires p != TotalDifficultyProperty
    requires forall j :: 0 <= j < |ts| ==> |ts[j]| > 0
    ensures |vs| == |ts|
  {
    seq(|ts|, j requires 0 <= j < |ts| => Access(p, ts[j], WordState(None, None, None, None)).0.value)
  }

  /** The cached totals, one per word. */
  function TotalValues(ss: seq<WordState>): (vs: seq<Value>)
    requires forall j :: 0 <= j < |ss| ==> ss[j].totalDifficulty.Some?
    ensures |vs| == |ss|
  {
    seq(|ss|, j requires 0 <= j < |ss| => Number(ss[j].totalDifficulty.value))
  }

  class Analyzer {
    /** The `word_objs` column. */
    const words: seq<Word>
    /** The other columns, in the order they were first added. */
    var columns: seq<Column>

    function WordObjs(): set<Word>
    {
      set w | w in words
    }

    function Texts(): (ts: seq<string>)
      ensures |ts| == |words| && forall j :: 0 <= j < |words| ==> ts[j] == words[j].text
    {
      seq(|words|, j requires 0 <= j < |words| => words[j].text)
    }

    /** The caches of every word, in order. */
    ghost function States(): (ss: seq<WordState>)
      reads WordObjs()
      ensures |ss| == |words| && forall j :: 0 <= j < |words| ==> ss[j] == words[j].State()
    {
      seq(|words|, j requires 0 <= j < |words| reads WordObjs() => words[j].State())
    }

    /** Every word object is valid and appears once, and every column has one value per word. */
    ghost predicate Valid()
      reads this, WordObjs()
      ensures Valid() ==> NonEmpty(Texts())
    {
      Distinct(words) && Rows(columns, |words|)
    }

    /** The table right after its `word_objs` column is filled: no other column yet. */
    constructor (ws: seq<Word>)
      requires Distinct(ws)
      ensures Valid() && words == ws && columns == []
    {
      words := ws;
      columns := [];
    }

    /**
     * `_get_property_from_words`: reads the property of every word in
     * order; if a read raises, the words before it keep what the read
     * cached and the rest are untouched. Only the total can raise.
     */
    method GetPropertyFromWords(p: Property) returns (r: Result<seq<Value>>)
      requires Valid()
      modifies WordObjs()
      ensures Valid()
      ensures p != TotalDifficultyProperty ==> r.Ok?
      ensures r.Ok? ==> |r.value| == |words|
      ensures r.Ok? ==> forall j :: 0 <= j < |words| ==>
        (Ok(r.value[j]), words[j].State()) == Access(p, words[j].text, old(words[j].State()))
      ensures r.Err? ==> exists k :: (
        && 0 <= k < |words| && Access(p, words[k].text, old(words[k].State())).0 == Err(r.error)
        && (forall j :: 0 <= j < k ==> Access(p, words[j].text, old(words[j].State())).0.Ok?)
        && (forall j :: 0 <= j < k ==> words[j].State() == Access(p, words[j].text, old(words[j].State())).1)
        && (forall j :: k <= j < |words| ==> words[j].State() == old(words[j].State())))
    {
      var values: seq<Value> := [];
      for i := 0 to |words|
        invariant Distinct(words)
        invariant |values| == i
        invariant forall j :: 0 <= j < i ==>
          (Ok(values[j]), words[j].State()) == Access(p, words[j].text, old(words[j].State()))
        invariant forall j :: i <= j < |words| ==> words[j].State() == old(words[j].State())
      {
        var v := Read(p, words[i]);
        if v.Err? {
          return Err(v.error);
        }
        values := values + [v.value];
      }
      return Ok(values);
    }

    /**
     * Stores the values of a property that only looks at the text in the
     * column of the same name, and caches them in the words.
     */
    method CheckTextProperty(p: Property)
      requires p != TotalDifficultyProperty && Valid()
      modifies this, WordObjs()
      ensures Valid()
      ensures forall j :: 0 <= j < |words| ==>
        words[j].State() == Access(p, words[j].text, old(words[j].State())).1
      ensures columns == WithColumn(old(columns), Column(Name(p), TextValues(p, Texts())))
    {
      var values := GetPropertyFromWords(p);
      assert values.value == TextValues(p, Texts());
      WithColumnRows(columns, Column(Name(p), values.value), |words|);
      columns := WithColumn(columns, Column(Name(p), values.value));
    }

    /** `_add_words_text_to_results`: the `text` column holds each word's normalised text. */
    method AddWordsTextToResults()
      requires Valid()
      modifies this, WordObjs()
      ensures Valid()
      ensures forall j :: 0 <= j < |words| ==> words[j].State() == old(words[j].State())
      ensures columns == WithColumn(old(columns), Column("text", TextValues(TextProperty, Texts())))
    {
      CheckTextProperty(TextProperty);
    }

    /** `check_length_difficulty`: caches each word's length and stores it in the `length` column. */
    method CheckLengthDifficulty()
      requires Valid()
      modifies this, WordObjs()
      ensures Valid()
      ensures forall j :: 0 <= j < |words| ==>
        words[j].State() == old(words[j].State()).(length := Some(|words[j].text|))
      ensures columns == WithColumn(old(columns), Column("length", TextValues(LengthProperty, Texts())))
    {
      CheckTextProperty(LengthProperty);
    }

    /** `check_silent_letter_difficulty`: caches each word's silent letters and stores them in `silent_letters`. */
    method CheckSilentLetterDifficulty()
      requires Valid()
      modifies this, WordObjs()
      ensures Valid()
      ensures forall j :: 0 <= j < |words| ==>
        words[j].State() == old(words[j].State()).(silentLetters := Some(CheckSilentLetters(words[j].text)))
      ensures columns == WithColumn(old(columns), Column("silent_letters", TextValues(SilentLettersProperty, Texts())))
    {
      CheckTextProperty(SilentLettersProperty);
    }

    /** `check_shared_phonemes_difficulty`: caches each word's shared phonemes and stores them in `shared_phonemes`. */
    method CheckSharedPhonemesDifficulty()
      requires Valid()
      modifies this, WordObjs()
      ensures Valid()
      ensures forall j :: 0 <= j < |words| ==>
        words[j].State() == old(words[j].State()).(sharedPhonemes := Some(CheckSharedPhonemes(words[j].text)))
      ensures columns == WithColumn(old(columns), Column("shared_phonemes", TextValues(SharedPhonemesProperty, Texts())))
    {
      CheckTextProperty(SharedPhonemesProperty);
    }

    /**
     * `determine_total_difficulty`: every word's total, or `ValueError`
     * if some word has neither a cached total nor any cached feature.
     * A word whose total was already cached keeps it; the others get the
     * sum of the features they have cached.
     */
    method DetermineTotalDifficulty() returns (r: Result<()>)
      requires Valid()
      modifies this, WordObjs()
      ensures Valid()
      ensures r.Err? <==> exists k :: 0 <= k < |words| && old(words[k].State()) == WordState(None, None, None, None)
      ensures r.Err? ==> r.error == ValueError && columns == old(columns)
      ensures r.Err? ==> exists k :: (
        && 0 <= k < |words| && old(words[k].State()) == WordState(None, None, None, None)
        && (forall j :: 0 <= j < k ==>
          words[j].State() == Access(TotalDifficultyProperty, words[j].text, old(words[j].State())).1)
        && (forall j :: k <= j < |words| ==> words[j].State() == old(words[j].State())))
      ensures r.Ok? ==> forall j :: 0 <= j < |words| ==> (words[j].totalDifficulty ==
        if old(words[j].totalDifficulty).Some? then old(words[j].totalDifficulty)
        else Some(FeatureSum(old(words[j].Cached()), words[j].text)))
      ensures r.Ok? ==> (
        && (forall j :: 0 <= j < |words| ==> words[j].totalDifficulty.Some?)
        && columns == WithColumn(old(columns), Column("total_difficulty", TotalValues(States()))))
      ensures forall j :: 0 <= j < |words| ==> (
        && words[j].length == old(words[j].length)
        && words[j].silentLetters == old(words[j].silentLetters)
        && words[j].sharedPhonemes == old(words[j].sharedPhonemes))
    {
      var values := GetPropertyFromWords(TotalDifficultyProperty);
      forall k | 0 <= k < |words| {
        AccessFails(TotalDifficultyProperty, words[k].text, old(words[k].State()));
      }
      if values.Err? {
        return Err(ValueError);
      }
      forall j | 0 <= j < |words|
        ensures words[j].totalDifficulty.Some? && values.value[j] == Number(words[j].totalDifficulty.value)
        ensures words[j].totalDifficulty ==
          if old(words[j].totalDifficulty).Some? then old(words[j].totalDifficulty)
          else Some(FeatureSum(old(words[j].Cached()), words[j].text))
      {
        TotalIsFeatureSum(words[j].text, old(words[j].State()), old(words[j].Cached()));
      }
      assert values.value == TotalValues(States());
      WithColumnRows(columns, Column("total_difficulty", values.value), |words|);
      columns := WithColumn(columns, Column("total_difficulty", values.value));
      return Ok(());
    }

    /** The `results` property: the table without its `word_objs` column, one value per word in each column. */
    function Results(): (r: seq<Column>)
      requires Valid()
      reads this, WordObjs()
      ensures Rows(r, |words|)
    {
      columns
    }

    /**
     * The first three steps of `run_all_analyses`: every feature of every
     * word is cached, and the three feature columns are set.
     */
    method CheckAllFeatures()
      requires Valid()
      modifies this, WordObjs()
      ensures Valid()
      ensures forall j :: 0 <= j < |words| ==> words[j].State() == WordState(
        Some(|words[j].text|), Some(CheckSilentLetters(words[j].text)),
        Some(CheckSharedPhonemes(words[j].text)), old(words[j].totalDifficulty))
      ensures columns == FeatureColumns(old(columns), Texts())
    {
      CheckLengthDifficulty();
      CheckSilentLetterDifficulty();
      CheckSharedPhonemesDifficulty();
    }

    /**
     * `run_all_analyses`: length, silent letters and shared phonemes are
     * cached for every word, so the total never fails; a word without a
     * cached total gets the sum of its three features. The four columns
     * are set in that order, and when no word had a total cached
     * beforehand, every row's total is the sum of its three features.
     */
    method RunAllAnalyses()
      requires Valid()
      modifies this, WordObjs()
      ensures Valid()
      ensures forall j :: 0 <= j < |words| ==> words[j].State() == FullyAnalysed(old(words[j].State()), words[j].text)
      ensures forall j :: 0 <= j < |words| ==> words[j].totalDifficulty.Some?
      ensures columns == WithColumn(FeatureColumns(old(columns), Texts()), Column("total_difficulty", TotalValues(States())))
      ensures Lookup(columns, "total_difficulty") == Some(TotalValues(States()))
      ensures (forall j :: 0 <= j < |words| ==> old(words[j].totalDifficulty).None?) ==> TotalsAreSums(columns, |words|)
    {
      CheckAllFeatures();
      ghost var features := States();
      ghost var before := columns;
      label features:
      var r := DetermineTotalDifficulty();
      assert r.Ok?;
      forall j | 0 <= j < |words|
        ensures words[j].State() == FullyAnalysed(old(words[j].State()), words[j].text)
      {
        var w := words[j];
        var t := w.text;
        assert old@features(w.State()) == features[j];
        assert old@features(w.Cached()) == AllFeatures;
        assert w.State() == FullyAnalysed(old(w.State()), t);
      }
      WithColumnSets(before, Column("total_difficulty", TotalValues(States())), "total_difficulty");
      if forall j :: 0 <= j < |words| ==> old(words[j].totalDifficulty).None? {
        assert TotalValues(States()) == FullTotals(Texts());
        FreshTotalsAreSums(old(columns), Texts());
      }
    }
  }

  /** Every text is non-empty, as a word's text always is. */
  predicate NonEmpty(ts: seq<string>)
  {
    forall j :: 0 <= j < |ts| ==> |ts[j]| > 0
  }

  /** The `length`, `silent_letters` and `shared_phonemes` columns set one after the other. */
  function FeatureColumns(cols: seq<Column>, ts: seq<string>): seq<Column>
    requires NonEmpty(ts)
  {
    var withLength := WithColumn(cols, Column("length", TextValues(LengthProperty, ts)));
    var withSilent := WithColumn(withLength, Column("silent_letters", TextValues(SilentLettersProperty, ts)));
    WithColumn(withSilent, Column("shared_phonemes", TextValues(SharedPhonemesProperty, ts)))
  }

  /** The totals of words that had none cached and have all three features cached. */
  function FullTotals(ts: seq<string>): (vs: seq<Value>)
    requires NonEmpty(ts)
  {
    seq(|ts|, j requires 0 <= j < |ts| => Number(FeatureSum(AllFeatures, ts[j])))
  }

  /** In each of the `n` rows, `total_difficulty` is `length + silent_letters + shared_phonemes`. */
  predicate TotalsAreSums(cols: seq<Column>, n: nat)
  {
    && Lookup(cols, "length").Some? && Lookup(cols, "silent_letters").Some?
    && Lookup(cols, "shared_phonemes").Some? && Lookup(cols, "total_difficulty").Some?
    && var length, silent, shared, total :=
      Lookup(cols, "length").value, Lookup(cols, "silent_letters").value,
      Lookup(cols, "shared_phonemes").value, Lookup(cols, "total_difficulty").value;
    && |length| == n && |silent| == n && |shared| == n && |total| == n
    && forall j :: 0 <= j < n ==>
      && length[j].Number? && silent[j].Number? && shared[j].Number?
      && total[j] == Number(length[j].n + silent[j].n + shared[j].n)
  }

  /**
   * Setting the three feature columns and then the totals of words that
   * had none cached gives a table whose every row totals its features.
   */
  lemma FreshTotalsAreSums(cols: seq<Column>, ts: seq<string>)
    requires NonEmpty(ts)
    ensures TotalsAreSums(WithColumn(FeatureColumns(cols, ts), Column("total_difficulty", FullTotals(ts))), |ts|)
  {
    var lengthColumn := Column("length", TextValues(LengthProperty, ts));
    var silentColumn := Column("silent_letters", TextValues(SilentLettersProperty, ts));
    var sharedColumn := Column("shared_phonemes", TextValues(SharedPhonemesProperty, ts));
    var totalColumn := Column("total_difficulty", FullTotals(ts));
    var withLength := WithColumn(cols, lengthColumn);
    var withSilent := WithColumn(withLength, silentColumn);
    var withShared := WithColumn(withSilent, sharedColumn);
    var table := WithColumn(withShared, totalColumn);
    WithColumnSets(withShared, totalColumn, "length");
    WithColumnSets(withShared, totalColumn, "silent_letters");
    WithColumnSets(withShared, totalColumn, "shared_phonemes");
    WithColumnSets(withShared, totalColumn, "total_difficulty");
    WithColumnSets(withSilent, sharedColumn, "length");
    WithColumnSets(withSilent, sharedColumn, "silent_letters");
    WithColumnSets(withSilent, sharedColumn, "shared_phonemes");
    WithColumnSets(withLength, silentColumn, "length");
    WithColumnSets(withLength, silentColumn, "silent_letters");
    WithColumnSets(cols, lengthColumn, "length");
    assert Lookup(table, "length") == Some(lengthColumn.values);
    assert Lookup(table, "silent_letters") == Some(silentColumn.values);
    assert Lookup(table, "shared_phonemes") == Some(sharedColumn.values);
    assert Lookup(table, "total_difficulty") == Some(totalColumn.values);
  }

  /**
   * A word's caches after `run_all_analyses`: all three features, and the
   * total that was cached before, or else the sum of the three features.
   */
  function FullyAnalysed(s: WordState, t: string): WordState
    requires |t| > 0
  {
    WordState(Some(|t|), Some(CheckSilentLetters(t)), Some(CheckSharedPhonemes(t)),
      if s.totalDifficulty.Some? then s.totalDifficulty else Some(FeatureSum(AllFeatures, t)))
  }

  /** Setting a column of `n` values keeps every column `n` values long. */
  lemma {:induction false} WithColumnRows(cols: seq<Column>, c: Column, n: nat)
    requires Rows(cols, n) && |c.values| == n
    ensures Rows(WithColumn(cols, c), n)
  {
    if cols != [] && cols[0].name != c.name {
      assert Rows(cols[1..], n) by {
        forall d | d in cols[1..] ensures |d.values| == n {
          assert d in cols;
        }
      }
      WithColumnRows(cols[1..], c, n);
    }
  }

  /** The total a read caches is the sum of the features cached when it is read. */
  lemma TotalIsFeatureSum(t: string, s: WordState, cached: set<Feature>)
    requires |t| > 0
    requires s.length.Some? ==> s.length.value == |t|
    requires s.silentLetters.Some? ==> s.silentLetters.value == CheckSilentLetters(t)
    requires s.sharedPhonemes.Some? ==> s.sharedPhonemes.value == CheckSharedPhonemes(t)
    requires cached == (if s.length.Some? then {LengthFeature} else {})
      + (if s.silentLetters.Some? then {SilentLettersFeature} else {})
      + (if s.sharedPhonemes.Some? then {SharedPhonemesFeature} else {})
    requires Access(TotalDifficultyProperty, t, s).0.Ok?
    ensures Access(TotalDifficultyProperty, t, s).1.totalDifficulty.Some?
    ensures Access(TotalDifficultyProperty, t, s).0.value == Number(Access(TotalDifficultyProperty, t, s).1.totalDifficulty.value)
    ensures s.totalDifficulty.None? ==> Access(TotalDifficultyProperty, t, s).1.totalDifficulty == Some(FeatureSum(cached, t))
  {
  }

  /** `save_results`: the file name is the given stem with ".csv" appended; the stem defaults to "results". */
  function CsvFileName(filename: string := "results"): (r: string)
    ensures |r| == |filename| + 4 && r[..|filename|] == filename && r[|filename|..] == ".csv"
  {
    filename + ".csv"
  }

  /**
   * `Analyzer(words)`: builds a word object per text (raising
   * `ValueError` on the first invalid one) and a table whose only
   * published column is `text`.
   */
  method NewAnalyzer(texts: seq<string>) returns (r: Result<Analyzer>)
    ensures r.Err? <==> exists i :: 0 <= i < |texts| && !IsWordText(NormalizeText(texts[i]))
    ensures r.Err? ==> r.error == ValueError
    ensures r.Ok? ==> fresh(r.value) && r.value.Valid() && |r.value.words| == |texts|
    ensures r.Ok? ==> forall i :: 0 <= i < |texts| ==>
      r.value.words[i].text == NormalizeText(texts[i]) && r.value.words[i].State() == WordState(None, None, None, None)
    ensures r.Ok? ==> r.value.columns == [Column("text", seq(|texts|, i requires 0 <= i < |texts| => Text(NormalizeText(texts[i]))))]
  {
    var objs := CreateWordObjs(texts);
    if objs.Err? {
      return Err(objs.error);
    }
    var a := new Analyzer(objs.value);
    a.AddWordsTextToResults();
    assert TextValues(TextProperty, a.Texts()) == seq(|texts|, i requires 0 <= i < |texts| => Text(NormalizeText(texts[i])));
    return Ok(a);
  }
}
