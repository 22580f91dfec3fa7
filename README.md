# wdiff: spelling difficulty of Spanish words, modelled in Dafny

wdiff gives each Spanish word a spelling-difficulty score. The score adds up several features:
- the word's length;
- its silent letters: the h not preceded by c, and the u of que/qui/gue/gui;
- its letters that share a sound with another spelling, such as b/v, s/z/c, j/g, k/q/c and y/ll.

The repository holds four generations of this analyzer, and the model covers all four:

- **`Word` and `Analyzer`** (wdiff/word.py, src/wdiff/analyzer.py, and the older copy wdiff/analyzer.py).
  - A `Word` normalises its text, validates it against the Spanish alphabet and computes its features by counting substrings.
  - Each feature is cached on first use. The total is cached too, and it is the sum of the features cached at that moment.
  - The `Analyzer` keeps a results table: one row per word, one column per analysis run.
  - wdiff/analyzer.py is the same class without `run_all_analyses`, so it is modelled once, by module `Analyzer`.
- **wdiff.py `WordAnalyzer`**.
  - Each analysis fills a dictionary from word to weighted score: length, silent letters, same-sound pairs and anagrams.
  - It records the analyses it has completed.
  - It integrates the dictionaries into one row per word and appends each row's total.
- **wanalysis.py `WordAnalyzer`**.
  - Its per-word counters are the same code as wdiff.py's:
    - `has_silent_h` and `has_silent_u`, at wanalysis.py:52-95;
    - `check_b_sound` to `swap_l_for_y_check`, at wanalysis.py:123-361.
  - Fixed weights, and an anagram count taken from a list of anagram lines.
- **analysis.py `WordAnalysis`**, the first version.
  - It screens out words with characters outside its accepted symbols, then scores length, silent letters and same-sound pairs.
  - Its silent-letter counters are the same code as wdiff.py's.

The earlier three analyzers test letters position by position. They use Python's reading of `word[i - 1]` at index 0, which is the last letter, and the `IndexError` raised by `word[i + 1]` past the end.
- Module `Rules` states each such test as a rule.
- Module `Scan` proves the two loop shapes (a `find` loop, and a list of positions judged afterwards) equal to the rule applied index by index.
- Module `Agreement` proves when these scans agree with the substring counts of the `Word` class.

Python exceptions are values (`Builtins.Error`).
- An operation that can raise returns a `Result`.
- A dictionary-filling loop that raises part-way keeps the entries it has written (module `Tables`).

Modules and files:
- `Builtins` (builtins.dfy): the Python string built-ins used.
- `Rules` (rules.dfy) and `Scan` (scan.dfy): the position-by-position rules and the two loop shapes.
- `Sounds` (sounds.dfy): the shared counters of wdiff.py and wanalysis.py.
- `Tables` (tables.dfy): the dictionaries the loops fill.
- `Word` (word.dfy) and `Analyzer` (analyzer.dfy).
- `Wdiff` (wdiff.dfy), `WAnalysis` (wanalysis.dfy) and `Analysis` (analysis.dfy): the three older analyzer classes.
- `Agreement` (agreement.dfy): the lemmas relating the versions.

Two behaviours of the code worth knowing:
- **A word's total difficulty** (wdiff/word.py:372-405 and 466-483) sums the features already cached. It does not compute the missing ones first. With none cached it raises `ValueError`.
- **Row totals after `run_all_analyses`** (src/wdiff/analyzer.py:183-197) equal length plus silent letters plus shared phonemes only for words that had no total cached before. A total cached by an earlier `determine_total_difficulty`, from fewer features, is kept, and that row's total then falls short of its three feature columns.

## Model

| member | source | states |
|---|---|---|
| Builtins.Attribute | wdiff.py:470-504 | reading an attribute never assigned raises `AttributeError`; otherwise it yields the assigned value (all getters of the three older classes) |
| Wdiff.WordAnalyzer.GetLengthInfo | wdiff.py:470-476 | `Builtins.Attribute` of the length dictionary |
| Wdiff.WordAnalyzer.GetSilentLetterInfo | wdiff.py:477-483 | `Builtins.Attribute` of the silent-letter dictionary |
| Wdiff.WordAnalyzer.GetSameSoundLetterInfo | wdiff.py:484-490 | `Builtins.Attribute` of the same-sound dictionary |
| Wdiff.WordAnalyzer.GetAnagramsInfo | wdiff.py:491-498 | `Builtins.Attribute` of the anagram dictionary |
| Wdiff.WordAnalyzer.GetWordDifficulty | wdiff.py:499-504 | `Builtins.Attribute` of the integrated rows |
| WAnalysis.WordAnalyzer.GetLengthInfo | wanalysis.py:417-421 | `Builtins.Attribute` of the length dictionary |
| WAnalysis.WordAnalyzer.GetSilentLetterInfo | wanalysis.py:422-426 | `Builtins.Attribute` of the silent-letter dictionary |
| WAnalysis.WordAnalyzer.GetSameSoundLetterInfo | wanalysis.py:427-433 | `Builtins.Attribute` of the same-sound dictionary |
| WAnalysis.WordAnalyzer.GetAnagramsInfo | wanalysis.py:434-438 | `Builtins.Attribute` of the anagram dictionary |
| WAnalysis.WordAnalyzer.GetWordInfo | wanalysis.py:439-443 | `Builtins.Attribute` of the integrated rows |
| WAnalysis.WordAnalyzer.GetAnalysisDimensions | wanalysis.py:444-449 | the four dimension names, always set |
| Analysis.WordAnalysis.GetSilentLetterInfo | analysis.py:277-281 | `Builtins.Attribute` of the silent-letter dictionary |
| Analysis.WordAnalysis.GetLengthInfo | analysis.py:282-286 | `Builtins.Attribute` of the length dictionary |
| Analysis.WordAnalysis.GetSameSoundLetterInfo | analysis.py:287-292 | `Builtins.Attribute` of the same-sound dictionary |
| Builtins.CountIsOcc | wdiff/word.py:147-151 | `str.count` of a pattern whose occurrences cannot overlap equals the number of indices where it occurs |
| Builtins.ContainsIffCount | wdiff.py:155-159 | `c in word` holds exactly when `word.count(c)` is positive, so the `in` guards of the counters never change a count |
| Builtins.Find | wdiff.py:91 | `find(c, start)` is the first index at or after `start` holding `c`, or -1 when there is none |
| Builtins.StripLeftShape | wdiff/word.py:51-67 | `lstrip` removes a prefix made only of whitespace and leaves text that does not start with whitespace |
| Builtins.StripRightShape | wdiff/word.py:51-67 | `rstrip` removes a suffix made only of whitespace and leaves text that does not end with whitespace |
| Rules.RuleCountAtMostLetters | wdiff.py:87-96 | a scan counts at most one per occurrence of its letter |
| Rules.LetterAbsent | wdiff.py:86 | a word without the scanned letter counts 0 and raises nothing |
| Rules.NeverFailsFrom | wdiff.py:79-97 | the h, g, c, y and l scans, which guard or wrap every index they read, never raise |
| Rules.RuleCountSkip | wdiff.py:91 | indices that do not hold the letter, which `find` jumps over, leave the count unchanged |
| Scan.PositionsHoldLetter | wdiff.py:183-187 | every collected position holds the letter |
| Scan.PositionsIncrease | wdiff.py:183-187 | collected positions strictly increase, so none is judged twice |
| Scan.PositionsComplete | wdiff.py:183-187 | every index holding the letter is collected |
| Scan.PositionsCount | wdiff.py:179-187 | there are as many positions as `word.count(letter)` says, so the search loop never runs out |
| Scan.FindStartsPositions | wdiff.py:183-187 | `find` returns -1 exactly when no position is left, and otherwise the first remaining position |
| Scan.JudgePositions | wdiff.py:188-195 | judging the collected positions in order equals the rule applied index by index |
| Scan.CollectPositions | wdiff.py:179-187 | the `count`/`find` loop lists exactly the indices holding the letter, in order |
| Scan.CountAtPositions | wdiff.py:173-195 | collecting the positions and then judging each computes the rule applied index by index, including the first `IndexError` |
| Scan.CountByFind | wdiff.py:79-97 | judging each hit of the `find` loop as it is found computes the rule applied index by index |
| Sounds.CountSilentH | wdiff.py:79-97 | counts the h's whose `word[i - 1]` is not c, where index 0 reads the last letter |
| Sounds.CountSilentU | wdiff.py:99-118 | counts the u's after q or g (index 0 reads the last letter) and before e or i; raises `IndexError` on a final u after q or g |
| Sounds.TotalSilentLetters | wdiff.py:72-77 | silent h's plus silent u's, or the u scan's exception |
| Sounds.SilentLetterTotal | wdiff.py:72-77 | silent h's plus silent u's (specified through `Agreement.SilentHScan` and `Agreement.SilentUScan`) |
| Sounds.CountGWithJSound | wdiff.py:173-195 | counts the g's followed by e or i; a final g is skipped and nothing raises |
| Sounds.CountCWithSSound | wdiff.py:222-244 | counts the c's followed by e or i; a final c is skipped |
| Sounds.CountQWithKSound | wdiff.py:273-296 | counts the q's followed by "ue" or "ui"; raises `IndexError` when "qu" ends the word |
| Sounds.CountCWithKSound | wdiff.py:298-321 | counts the c's followed by a, o or u |
| Sounds.CountYWithLLSound | wdiff.py:336-360 | counts every y except a final one |
| Sounds.CountLWithLLSound | wdiff.py:362-384 | counts the l's followed by another l, overlapping pairs included |
| Sounds.BSwappable | wdiff.py:150-159 | b/v pairs: count of b times count of v, 0 when either is absent |
| Sounds.JSwappable | wdiff.py:161-171 | j/g pairs: count of j times the g's sounding /x/ |
| Sounds.SSwappable | wdiff.py:197-220 | every branch on the presence of s, c and z yields the s/c/z pairs; the c scan is run, and can raise, only when c and s or z are present |
| Sounds.KSwappable | wdiff.py:246-271 | every branch yields the k/q/c pairs; the q scan can raise only when q and k or c are present |
| Sounds.LLSwappable | wdiff.py:323-334 | pairs of a non-final y and an l starting "ll" |
| Sounds.TotalSameSoundLetters | wdiff.py:139-148 | the five pair counts added left to right, so the first exception wins |
| Sounds.SameSoundTotal | wdiff.py:139-148 | the five pair counts added left to right (specified through `Sounds.TotalSameSoundLetters` and the pair counters) |
| Tables.FillMeaning | wdiff.py:49-52 | every key is a listed word holding its score; the loop fails exactly when some score raises; it then stops at the first such word with every earlier word stored and no later word a key; otherwise every word is a key |
| Tables.FillStops | wdiff.py:65-70 | words after the one that raised leave the dictionary unchanged |
| Tables.FillNext | wdiff.py:49-52 | one more iteration stores the next word's score, or stops with its exception and the dictionary unchanged |
| Tables.FillSameScores | wdiff.py:456-466 | two scorings that agree on every listed word fill the same dictionary |
| Tables.WithTotal | wdiff.py:446-449 | the appended last entry is the sum of the row before it, which is kept |
| Tables.WithTotals | wanalysis.py:392-399 | every row gains its own sum as last entry; keys are unchanged |
| Wdiff.Weighted | wdiff.py:65-70 | a score is the weight times the count; an exception from the count passes through |
| Wdiff.CountAnagrams | wdiff.py:409-439 | the number of listed words, the word itself and repeats included, with the same letters in any order |
| Wdiff.AnagramCount | wdiff.py:409-439 | the listed words with the same letters as the word (specified through `Wdiff.AnagramCountBounds` and `Wdiff.AnagramCountSameLetters`) |
| Wdiff.AnagramCountBounds | wdiff.py:409-439 | the anagram count is at most the number of listed words, and at least 1 for a listed word |
| Wdiff.AnagramCountSameLetters | wdiff.py:409-439 | two words made of the same letters get the same anagram count |
| Wdiff.AnagramIndexZero | wdiff.py:397-407 | a listed word with no other anagram in the list scores 0 |
| Wdiff.IndexErrors | wdiff.py:38-148 | length and anagram scores never raise; any other exception is `IndexError` |
| Wdiff.RuleErrors | wdiff.py:99-118 | the only exception a letter scan raises is `IndexError` |
| Wdiff.Score | wdiff.py:38-148 | one word's weighted score for any of the four analyses |
| Wdiff.Tabulate | wdiff.py:49-52 | the scoring loop fills the dictionary `Fill` describes and reports its exception |
| Wdiff.AlwaysScored | wdiff.py:49-52 | length and anagram loops never stop early |
| Wdiff.ScoredAll | wdiff.py:49-52 | after an analysis that did not raise, every word is a key holding its score |
| Wdiff.RowOfPresent | wdiff.py:456-466 | with all four analyses completed and the word in each dictionary, the row is the four scores in analysis order |
| Wdiff.CompleteRows | wdiff.py:451-468 | after all four analyses ran over the words without raising, integration succeeds and each row holds the word's four scores |
| Wdiff.IntegrationOfScored | wdiff.py:451-468 | integration succeeds once every completed dictionary holds every word |
| Wdiff.FailedAnalysisBreaksIntegration | wdiff.py:451-468 | a completed analysis that raised part-way makes integration raise |
| Wdiff.WordAnalyzer.constructor | wdiff.py:22-23 | no completed analyses and nothing assigned |
| Wdiff.WordAnalyzer.SetWords | wdiff.py:25-36 | replaces the word list and nothing else |
| Wdiff.WordAnalyzer.Determine | wdiff.py:38-70 | records the analysis name and fills only its own dictionary; without words it raises `AttributeError` |
| Wdiff.WordAnalyzer.DetermineLengthDifficulty | wdiff.py:38-52 | every word maps to its length times the weight (default 3) |
| Wdiff.WordAnalyzer.DetermineSilentLetterDifficulty | wdiff.py:54-70 | the dictionary holds each word's silent letters times the weight (default 2), up to the first raising word |
| Wdiff.WordAnalyzer.DetermineSameSoundLetterDifficulty | wdiff.py:120-137 | same, for same-sound pairs (default weight 2) |
| Wdiff.WordAnalyzer.DetermineAnagramsDifficulty | wdiff.py:386-407 | every word maps to 0 without other anagrams, else its anagram count times the weight (default 1) |
| Wdiff.WordAnalyzer.AppendEntry | wdiff.py:460-467 | appends a completed analysis's score; `AttributeError` for an unassigned dictionary, `KeyError` for a missing word |
| Wdiff.WordAnalyzer.IntegrateWordInformation | wdiff.py:451-468 | one row per word holding the scores of the completed analyses in fixed order, or the first exception |
| Wdiff.WordAnalyzer.DetermineTotalDifficultyIndex | wdiff.py:441-449 | records "total difficulty"; each integrated row gains its sum; if integration raises, `wordInfo` is unchanged |
| WAnalysis.InAnagramsList | wanalysis.py:379-390 | the length of the last line holding the word, 0 if none |
| WAnalysis.LastLineWith | wanalysis.py:379-390 | the length of the last anagram line holding the word (specified through `WAnalysis.LastLineWithMeaning`) |
| WAnalysis.LastLineWithMeaning | wanalysis.py:379-390 | 0 exactly when no line holds the word; otherwise the length of a line holding it with no later line holding it |
| WAnalysis.TabulateAnagrams | wanalysis.py:372-377 | every word maps to its anagram-line length |
| WAnalysis.WordAnalyzer.constructor | wanalysis.py:13-21 | stores the words and the four dimension names, the missing comma included |
| WAnalysis.WordAnalyzer.CheckLength | wanalysis.py:23-31 | every word maps to three times its length |
| WAnalysis.WordAnalyzer.CheckSilentLetters | wanalysis.py:33-45 | silent letters times 2, up to the first raising word |
| WAnalysis.WordAnalyzer.CheckSameSoundLetter | wanalysis.py:97-110 | same-sound pairs times 2, up to the first raising word |
| WAnalysis.WordAnalyzer.CheckAnagrams | wanalysis.py:363-377 | every word maps to its anagram-line length; with no anagram list defined, the first word raises `NameError` |
| WAnalysis.WordAnalyzer.IntegrateWordInformation | wanalysis.py:401-415 | `wordInfo` is one row of four scores per word plus its sum; a missing dictionary or word stops it with the rows so far |
| WAnalysis.WordAnalyzer.DetermineTotalDifficultyIndex | wanalysis.py:392-399 | each row gains its sum; `AttributeError` before any integration |
| WAnalysis.IntegrationAfterChecks | wanalysis.py:401-415 | after the four checks ran without raising, every row is the three weighted scores followed by the anagram-line length |
| WAnalysis.RowsOfChecks | wanalysis.py:401-415 | once each dictionary holds every word, integration succeeds and each row is the three weighted scores and the anagram-line length |
| Analysis.AcceptedIsListed | analysis.py:46 | the accepted-symbol test is exactly membership in the symbols as stored |
| Analysis.HasSpecialCharacters | analysis.py:41-50 | `True` exactly when some upper-cased letter is not an accepted symbol, else `None` |
| Analysis.EnyeIsSpecial | analysis.py:46-50 | any word holding ñ or Ñ has a special character |
| Analysis.HasSpecialIntended | analysis.py:41-50 | the screen as evidently intended: some upper-cased letter is neither A to Z nor Ñ |
| Analysis.IntendedIsListed | analysis.py:46 | the intended test is exactly membership in the capitals A to Z and Ñ |
| Analysis.HasSpecialCharactersCorrected | analysis.py:41-50 | `True` exactly when some upper-cased letter is outside the intended symbols, else `None` |
| Analysis.IntendedAcceptsSpanishLetters | analysis.py:41-50 | the corrected screen flags no word made of a to z and ñ, in either case |
| Analysis.NinoAccepted | analysis.py:46 | "niño" is flagged as written and accepted by the corrected screen |
| Analysis.WrittenFlagsAreIntended | analysis.py:41-50 | on words without ñ or Ñ, every word flagged as written is flagged by the corrected screen |
| Analysis.IntendedFlagsAreWritten | analysis.py:41-50 | on words without ã, Ã or U+2018, every word the corrected screen flags is flagged as written |
| Analysis.RemoveFirst | analysis.py:52-56 | `list.remove` takes out one occurrence: length drops by one, multiset loses one copy |
| Analysis.RemoveEachMeaning | analysis.py:52-56 | removing the words succeeds exactly when they form a sub-multiset of the list, and then removes exactly them; otherwise `ValueError` |
| Analysis.CollectSpecial | analysis.py:27-30 | the words with a special character, in list order |
| Analysis.SpecialAreSpecial | analysis.py:27-30 | every collected word has a special character |
| Analysis.EliminateSpecialLeavesPlain | analysis.py:32-39 | removing the collected words never raises and leaves exactly the other words, in order |
| Analysis.PlainArePlain | analysis.py:20-39 | the remaining words have no special character, and every such word of the list remains |
| Analysis.NoSpecialIsPlain | analysis.py:32 | with nothing collected the list is unchanged |
| Analysis.WordAnalysis.constructor | analysis.py:15-18 | stores the words and the four dimension names |
| Analysis.WordAnalysis.EliminateInvalidWords | analysis.py:52-56 | removes the given words one by one, leaving the partial list and `ValueError` at the first missing word |
| Analysis.WordAnalysis.CheckSpecialCharacters | analysis.py:20-39 | records the special words and leaves the list holding exactly the plain words in order |
| Analysis.WordAnalysis.Length | analysis.py:58-72 | every word maps to its length, unweighted |
| Analysis.WordAnalysis.CheckSilentLetters | analysis.py:74-86 | silent letters times 1, up to the first raising word |
| Analysis.WordAnalysis.CheckSameSoundLetter | analysis.py:142-155 | same-sound pairs times 2, up to the first raising word |
| Analysis.Score | analysis.py:58-155 | one word's score for the three dimensions |
| Analysis.Tabulate | analysis.py:74-86 | the scoring loop fills the dictionary `Fill` describes |
| Analysis.GSwappableCheck | analysis.py:190-207 | g's before e or i, with `IndexError` on a final g |
| Analysis.CSwappableCheck | analysis.py:237-257 | c's before e or i, with `IndexError` on a final c |
| Analysis.CheckJSound | analysis.py:177-188 | j/g pairs when j and g are present, else `UnboundLocalError` |
| Analysis.HasSameSoundLetters | analysis.py:157-165 | b, j and s pairs plus two zeros, left to right, first exception wins |
| Analysis.CheckBSound | analysis.py:167-175 | b/v pairs when b and v are present, else `UnboundLocalError` (specified through `Analysis.SameSoundNeedsAllFour`) |
| Analysis.JSound | analysis.py:177-188 | j/g pairs when j and g are present, else `UnboundLocalError` (specified through `Analysis.SameSoundNeedsAllFour`) |
| Analysis.UnguardedSameSoundTotal | analysis.py:157-165 | the b, j and s pair counts plus two zeros (specified through `Analysis.SameSoundNeedsAllFour` and `Analysis.CasaRaises`) |
| Analysis.SameSoundNeedsAllFour | analysis.py:167-188 | the total succeeds only for words holding b, v, j and g; without b and v it raises `UnboundLocalError`; when the b check succeeds it agrees with wdiff.py |
| Analysis.CasaRaises | analysis.py:167-175 | on "casa" the same-sound analysis raises `UnboundLocalError` |
| Analysis.SameSoundStopsAtFirstWord | analysis.py:142-155 | when the first word lacks b or v, the same-sound dictionary stays empty |
| Word.NormalizeShape | wdiff/word.py:51-67 | normalised text neither starts nor ends with whitespace and is all lower case |
| Word.NormalizeText | wdiff/word.py:51-67 | `strip` then `lower` (specified through `Word.NormalizeShape` and `Word.NormalizeIdempotent`) |
| Word.WordLengthIsInvalid | wdiff/word.py:96-110 | a text is too short exactly when it is empty (used by `Word.ValidateWord`) |
| Word.NormalizeIdempotent | wdiff/word.py:51-67 | normalising twice equals normalising once |
| Word.ValidCharacterIsListed | wdiff/word.py:126 | the character test is exactly membership in the valid characters |
| Word.WordContainsInvalidCharacter | wdiff/word.py:112-130 | true exactly when some character is outside the alphabet |
| Word.ValidateWord | wdiff/word.py:70-93 | accepts exactly non-empty texts over the alphabet; raises `ValueError` otherwise |
| Word.CalculateTotalDifficulty | wdiff/word.py:372-405 | `ValueError` exactly when no feature is cached; otherwise the sum of the cached ones |
| Word.SilentHIsPositional | wdiff/word.py:157-175 | count of "h" minus count of "ch" counts the h's that start the word or follow a letter other than c |
| Word.SilentUIsPositional | wdiff/word.py:133-154 | the four substring counts count the u's strictly between q or g and e or i |
| Word.SilentLettersArePositional | wdiff/word.py:183-205 | silent letters are the positional silent u's plus the positional silent h's |
| Word.TwoLetterRule | wdiff/word.py:225 | counting "ci"+"ce" (or "ge"+"gi") counts the c's (g's) followed by e or i |
| Word.CBeforeAOUIsCount | wdiff/word.py:315-319 | "ca"+"co"+"cu" counts the c's followed by a, o or u |
| Word.YNotFinalIsCount | wdiff/word.py:268-270 | count of y minus a final y counts the non-final y's |
| Word.SharedPhonemesArePositional | wdiff/word.py:208-322 | each shared-phoneme count restated letter by letter |
| Word.CheckSilentU | wdiff/word.py:133-154 | "que" + "qui" + "gue" + "gui" counts (specified through `Word.SilentUIsPositional`) |
| Word.CheckSilentH | wdiff/word.py:157-175 | count of "h" minus count of "ch" (specified through `Word.SilentHIsPositional`) |
| Word.CheckSilentLetters | wdiff/word.py:183-205 | silent u's plus silent h's (specified through `Word.SilentLettersArePositional`) |
| Word.CheckSharedPhonemeS | wdiff/word.py:208-228 | z's, s's and c's before e or i (specified through `Word.SharedPhonemesArePositional`) |
| Word.CheckSharedPhonemeB | wdiff/word.py:231-249 | b's and v's, counted as the source does |
| Word.CheckSharedPhonemeY | wdiff/word.py:252-274 | "ll"'s plus the non-final y's (specified through `Word.YNotFinalIsCount`) |
| Word.CheckSharedPhonemeJ | wdiff/word.py:277-295 | j's plus g's before e or i (specified through `Word.TwoLetterRule`) |
| Word.CheckSharedPhonemeK | wdiff/word.py:298-322 | k's, q's and c's before a, o or u (specified through `Word.CBeforeAOUIsCount`) |
| Word.CheckSharedPhonemes | wdiff/word.py:330-365 | the five shared-phoneme counts added (specified through `Word.SharedPhonemesArePositional`) |
| Word.FeatureSum | wdiff/word.py:372-405 | the sum of the values of the given features (specified through `Analyzer.TotalIsFeatureSum`) |
| Word.Word.constructor | wdiff/word.py:34-49 | a valid text with nothing cached |
| Word.Word.Length | wdiff/word.py:413-420 | returns the length, caching it; a cached value is returned unchanged; other caches untouched |
| Word.Word.SilentLetters | wdiff/word.py:422-441 | same, for silent letters |
| Word.Word.SharedPhonemes | wdiff/word.py:443-462 | same, for shared phonemes |
| Word.Word.TotalDifficulty | wdiff/word.py:464-483 | a cached total is returned; otherwise the sum of the cached features is cached and returned; `ValueError` exactly when nothing is cached |
| Word.NewWord | wdiff/word.py:34-49 | `ValueError` exactly when the normalised text is not a valid word; otherwise a fresh word with nothing cached |
| Analyzer.WithColumnSets | src/wdiff/analyzer.py:89 | setting a column makes its name look up the new values, leaves other columns alone, and appends the name only if new |
| Analyzer.WithColumnTwice | src/wdiff/analyzer.py:194-196 | setting a column twice under one name equals setting it once to the later values, in the same place, so re-running a check changes nothing more |
| Analyzer.WithColumnRows | src/wdiff/analyzer.py:76 | adding a column of one value per word keeps every column at one value per word |
| Analyzer.AccessFails | src/wdiff/analyzer.py:62 | reading a property fails only for the total of a word with nothing cached, and then changes nothing |
| Analyzer.Read | src/wdiff/analyzer.py:62 | reading a property returns the value and updates the word's caches as the property does |
| Analyzer.CreateWordObjs | src/wdiff/analyzer.py:29-45 | one fresh distinct word per text, in order; `ValueError` exactly when some text is not a valid word |
| Analyzer.Analyzer.constructor | src/wdiff/analyzer.py:16-27 | the table holds the word objects and no other column yet |
| Analyzer.Analyzer.GetPropertyFromWords | src/wdiff/analyzer.py:47-65 | reads the property of every word in order; on an exception, the earlier words keep what they cached and the later ones are untouched |
| Analyzer.Analyzer.AddWordsTextToResults | src/wdiff/analyzer.py:67-76 | the `text` column holds each word's normalised text |
| Analyzer.Analyzer.CheckLengthDifficulty | src/wdiff/analyzer.py:78-90 | caches every length and sets the `length` column |
| Analyzer.Analyzer.CheckSilentLetterDifficulty | src/wdiff/analyzer.py:92-108 | caches every silent-letter count and sets the `silent_letters` column |
| Analyzer.Analyzer.CheckSharedPhonemesDifficulty | src/wdiff/analyzer.py:110-126 | caches every shared-phoneme count and sets the `shared_phonemes` column |
| Analyzer.Analyzer.DetermineTotalDifficulty | src/wdiff/analyzer.py:128-149 | `ValueError` exactly when some word has nothing cached; the words before the first such word have read and cached their totals, the others are unchanged, and the columns are unchanged; otherwise every word's total is cached (the earlier total or the sum of its cached features) and the `total_difficulty` column set |
| Analyzer.Analyzer.Results | src/wdiff/analyzer.py:151-163 | the published columns, each with one value per word |
| Analyzer.Analyzer.CheckAllFeatures | src/wdiff/analyzer.py:194-196 | all three features cached for every word; the `length`, `silent_letters` and `shared_phonemes` columns set in that order, other columns unchanged |
| Analyzer.Analyzer.RunAllAnalyses | src/wdiff/analyzer.py:183-197 | every word ends fully analysed; the four columns are set in order, other columns unchanged; the total never fails and equals the earlier total or the sum of all three features; with no total cached beforehand, every row's total is its length plus silent letters plus shared phonemes |
| Analyzer.TotalIsFeatureSum | wdiff/word.py:394-405 | the total read from a word is the sum of the features cached at that moment |
| Analyzer.FeatureColumns | src/wdiff/analyzer.py:194-196 | the table after the three feature columns are set one after the other (specified through `Analyzer.FreshTotalsAreSums`) |
| Analyzer.FreshTotalsAreSums | src/wdiff/analyzer.py:183-197 | after the three feature columns and the totals of words with no earlier total, every row's `total_difficulty` is `length + silent_letters + shared_phonemes` |
| Analyzer.CsvFileName | src/wdiff/analyzer.py:179 | the file name is the stem followed by ".csv", stem "results" by default |
| Analyzer.NewAnalyzer | src/wdiff/analyzer.py:16-27 | builds the words or raises `ValueError`; the table publishes only the `text` column |
| Agreement.SameButLast | wdiff.py:99-118 | two scans judging every occurrence alike except a raising final one count alike, or raise on it |
| Agreement.UnguardedScans | analysis.py:190-207 | the unguarded g and c scans raise `IndexError` exactly on a word ending in that letter, otherwise equal the guarded scans |
| Agreement.ZincRaises | analysis.py:237-257 | the c scan raises on "zinc"; the guarded scan counts 0 |
| Agreement.SilentUScan | wdiff.py:99-118 | the u scan raises exactly on a final u after q or g; otherwise it equals the `Word` count plus a leading u before e or i in a word ending in q or g, which the wrap-around at index 0 counts |
| Agreement.WrappedLeadingU | wdiff.py:104-108 | the one extra u the wrapped scan counts at index 0 (specified through `Agreement.SilentUScan`) |
| Agreement.SilentHScan | wdiff.py:79-97 | the h scan equals the `Word` count except for one h lost when the word starts with h and ends with c |
| Agreement.AlphabetsDifferOnEnye | analysis.py:41-50 | on words of a-z and ñ, the `Word` alphabet accepts all, analysis.py flags exactly those with ñ |
| Agreement.NinoIsRejected | analysis.py:46 | "niño" is a valid `Word` and a special-character word for analysis.py |
| Agreement.FullTotal | src/wdiff/analyzer.py:183-197 | the total of a fully analysed word is length plus silent letters plus shared phonemes |
| Agreement.HechoSilentH | tests/test_word.py:20 | "hecho" has one silent h |
| Agreement.GuisoSilentU | tests/test_word.py:43 | "guiso" has one silent u |
| Agreement.TotalExamples | tests/test_analyzer.py:38-46 | totals of cached features 1, 2, 3 and 1, none, 3 are 6 and 4 |

## Left out

- Reading and writing files: the pandas DataFrame and CSV writing, `save_results`, `format_data` and `_format_results` beyond the column list, the `iofiles` writing of invalid words in analysis.py, and the command-line interface.
- The `print` calls and the `__main__` blocks.
- The docstring machinery.
- Analyzer.Read: `getattr` by property name is modelled as a closed set of five properties.
- Builtins.LowerChar, Builtins.UpperChar: case mapping covers ASCII and Latin-1 only. Other scripts, and upper-casing that makes two letters (such as ß), are not modelled.
- Builtins.IsWhitespace: lists the characters Python's `str.isspace` accepts in the Basic Multilingual Plane. No other Unicode behaviour is modelled.
- WAnalysis.WordAnalyzer.CheckAnagrams: the anagram list is a name wanalysis.py never defines. It is a parameter here, and `None` stands for the undefined name. A list read as raw text lines, where `in` would be a substring test, is not modelled.
- Analysis.HasSpecialCharacters: Python returns `None`, not `False`, for a word without special characters. The model keeps that as `Option<bool>`.
- Analysis.WordAnalysis.CheckSpecialCharacters: the word list is modelled by value. If the caller still holds the list it passed to the constructor, it sees the removals in Python; the model does not capture that aliasing.
- Analysis.WordAnalysis: the `iodata` and `acceptedSymbols` attributes it sets along the way are not modelled.
- Word.Word.constructor: takes an already normalised, valid text. `Word.NewWord` is the Python constructor, with its normalisation and `ValueError`.
- Analyzer.Analyzer: the `word_objs` column is kept apart from the published columns. `_format_results` drops it, so no result differs.

## Findings

| source | as written | input that shows it | evidently intended | confidence | as-written member | corrected member |
|---|---|---|---|---|---|---|
| analysis.py:46 | the accepted symbols hold "Ã‘" (U+00C3, U+2018), the UTF-8 bytes of "Ñ" read as Windows-1252, so Ñ is not accepted | "niño" | Ñ (U+00D1) among the accepted capitals; otherwise the same screen | not executed | Analysis.NinoAccepted | Analysis.HasSpecialCharactersCorrected |
| analysis.py:167-175 | `bSwappableCount` is assigned only when b and v are present but returned always: `UnboundLocalError` | "casa" | 0 pairs when b or v is missing, as wdiff.py:150-159 does | not executed | Analysis.CasaRaises | Sounds.BSwappable |
| analysis.py:177-188 | `jSwappableCount` is assigned only when j and g are present but returned always: `UnboundLocalError` | "gato" | 0 pairs when j or g is missing, as wdiff.py:161-171 does | not executed | Analysis.SameSoundNeedsAllFour | Sounds.JSwappable |
| analysis.py:237-257 | `word[position+1]` is read for a final c: `IndexError` | "zinc" | a final c is not followed by e or i and is skipped, as wdiff.py:222-244 does | not executed | Agreement.ZincRaises | Sounds.CountCWithSSound |
| analysis.py:190-207 | `word[position+1]` is read for a final g: `IndexError` | "zigzag" | a final g is skipped, as wdiff.py:173-195 does | not executed | Agreement.UnguardedScans | Sounds.CountGWithJSound |
