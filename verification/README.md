# guess_lexer: a Dafny model of the language and framework detector

`GuessLexer` guesses the programming language of a piece of source text and,
secondarily, the application framework. It works from weighted
regular-expression and keyword tables, plus an optional filename-extension
hint. This project models its detection engine and proves properties of it:

- the rule tables;
- the per-language scorer;
- the extension-hint lookup;
- the two-stage decision: best language, then the best framework of that
  language.

Layout, one module per component:

- `text.dfy` (`Wrappers`, `Text`): the string operations the engine relies on.
  - `Wrappers` holds `Option`.
  - `Text` holds ASCII `lower()`, `strip()` and its whitespace set, substring
    containment, POSIX `os.path.splitext`, and decimal rendering of counts.
- `rules.dfy` (`Rules`): the shape of a rule registry.
  - Languages, frameworks and extensions are ordered sequences, because every
    dictionary of the source is iterated in insertion order.
  - `Registry.WellFormed` states the self-consistency the tables are written
    with.
- `tables.dfy` (`Tables`): the literal tables of the source.
  - The 17 languages, 9 frameworks and 17 extension lists.
  - Lemmas that the tables are well formed and that the supported names are
    the dictionary keys in order.
- `scorer.dfy` (`Scorer`): `_score_language` and the body of the framework loop
  of `_detect_framework`.
  - Accumulator folds follow the source's loops. They are proved equal to
    reference definitions that read the count and the evidence off the rule
    lists.
- `detector.dfy` (`Detector`): `analyze_code` and `_detect_framework`.
  - The hint lookup, the language stage, the framework stage and the fused
    result.
  - `AnalyzeCode` is the analysis over the built-in tables.
- `hints.dfy` (`HintEffects`): what the 1.5× extension hint can and cannot do
  to the decision. This includes a small registry on which the hint lowers
  the final confidence.

Regular-expression matching is a parameter. `Matcher` maps a pattern and a
text to the number of matches `re.findall(..., re.MULTILINE | re.IGNORECASE)`
would return, and every property holds for every matcher. Keyword tests are
modelled concretely as case-insensitive substring containment.

One might expect that supplying a filename whose extension maps to a
language never lowers the confidence. In `analyze_code` that holds for the
language stage, but not for the final result, for this reason:

- The hint can switch the winner to the hinted language (guess_lexer.py:551-559).
- The framework bonus is then computed for the new winner (guess_lexer.py:563-571).
- A winner without a matching framework ends with a lower confidence than the
  previous winner had with one.

The model follows the code:

- `HintEffects.HintNeverLowersLanguageScore` proves the language-stage version.
- `HintEffects.HintCanLowerFinalConfidence` exhibits a registry where the
  final confidence drops from 0.81 to 0.72.
- The other half of that promise holds and is proved as
  `HintEffects.HintCannotOvertakeDominant`: a language scoring more than 1.5
  times another is never overtaken by the other's hint.

## Model

| member | source | states |
|---|---|---|
| Text.Lower | guess_lexer.py:585 | `lower()` keeps the length and folds each character on its own: ASCII capitals become small letters, everything else stays |
| Text.LowerIsFolded | guess_lexer.py:607 | lower-casing is idempotent and leaves no ASCII capital, so both sides of the keyword test are in one case |
| Text.TrimStartDropsSpace | guess_lexer.py:532 | stripping the front removes exactly a prefix of whitespace and stops at the first non-whitespace character |
| Text.TrimEndDropsSpace | guess_lexer.py:532 | stripping the back removes exactly a suffix of whitespace and stops at the last non-whitespace character |
| Text.StripDropsOuterSpace | guess_lexer.py:532 | `Strip` (`code.strip()`) keeps one contiguous slice of the code; everything before and after it is whitespace, and the slice neither starts nor ends with whitespace |
| Text.BlankIffAllSpace | guess_lexer.py:532-533 | `IsBlank`, the test `not code.strip()`, holds exactly when every character of the code is whitespace (empty code included) |
| Text.ContainsIffOccurs | guess_lexer.py:607 | `needle in hay` holds exactly when the needle occurs at some position of the hay |
| Text.SplitExt | guess_lexer.py:585 | `splitext` splits the path into two parts that concatenate back to the path |
| Text.SplitExtFindsLastDot | guess_lexer.py:585 | the extension is empty or starts with its only '.' and contains no '/'; it is non-empty exactly when, after the last '/', a '.' is preceded by some character other than '.' |
| Text.NatToStringRoundTrip | guess_lexer.py:602 | the decimal rendering of a count reads back as that count |
| Scorer.ScanPatterns | guess_lexer.py:598-602 | the pattern loop adds the total match count of the list to the counter, and appends one line per pattern with at least one match, in list order |
| Scorer.ScanKeywords | guess_lexer.py:606-609 | the keyword loop adds the number of keywords present (each once, however often it occurs), and appends one line per present keyword, in list order |
| Scorer.ScoreLanguage | guess_lexer.py:591-624 | score = max(0, (0.6·pattern matches + 0.4·present keywords)·weight − 0.3·anti-pattern matches), never negative; evidence = pattern lines, then keyword lines, then anti-pattern lines |
| Scorer.ScoreFramework | guess_lexer.py:635-655 | a framework is kept exactly when a pattern matches or a keyword is present; a kept framework scores (0.7·pattern matches + 0.3·present keywords)·weight; its evidence is pattern lines, then keyword lines |
| Scorer.KeywordInIgnoresCase | guess_lexer.py:607 | `KeywordIn`, the test `keyword.lower() in code.lower()`, holds exactly when the lower-cased keyword occurs at some position of the lower-cased code, and lower-casing either argument first changes nothing |
| Scorer.LineDeterminesCount | guess_lexer.py:602-617 | `Evidence.Line`: two rendered pattern lines, or two rendered anti-pattern lines, for the same pattern are equal only when their match counts are equal |
| Scorer.PatternLinesReportMatches | guess_lexer.py:598-602 | a pattern list gives evidence exactly when it has a match; at most one line per pattern; every reported count is at least 1 |
| Scorer.KeywordLinesCountPresent | guess_lexer.py:606-609 | the number of keyword lines equals the keyword count, which never exceeds the number of keywords |
| Scorer.UnmatchedPatternAddsNothing | guess_lexer.py:600 | inserting a pattern with no match anywhere in a list changes neither the match total nor the evidence |
| Scorer.PositiveScoreHasSupport | guess_lexer.py:620-622 | a positive language score needs a positive weight and a pattern match or a present keyword, and comes with evidence |
| Scorer.KeptFrameworkScoresPositive | guess_lexer.py:652-653 | under a positive weight, every kept framework scores above zero |
| Rules.Registry.LanguageNames | guess_lexer.py:682-684 | one name per language rule, in table order: the keys `get_supported_languages` lists |
| Rules.Registry.FrameworkNames | guess_lexer.py:686-688 | one name per framework rule, in table order: the keys `get_supported_frameworks` lists |
| Tables.SupportedNames | guess_lexer.py:682-688 | the supported languages and frameworks are the table keys in declaration order |
| Tables.DefaultNamesUnique | guess_lexer.py:39-497 | no language and no framework is declared twice |
| Tables.DefaultWeightsPositive | guess_lexer.py:39-497 | every language and framework weight is positive, and no language is called "unknown" |
| Tables.FrameworkOwnersRegistered | guess_lexer.py:308-497 | every framework belongs to a language of the language table |
| Tables.ExtensionOwnersRegistered | guess_lexer.py:499-519 | the extension table lists the languages of the language table, in the same order |
| Tables.DefaultWellFormed | guess_lexer.py:34-37 | the registry the constructor builds is well formed |
| Detector.FirstWithSuffixIsFirst | guess_lexer.py:586-589 | the scan returns the first rule from the start position that lists the suffix, or -1 when none does |
| Detector.ExtensionHintIsFirstMatch | guess_lexer.py:583-589 | `ExtensionHint`, the lookup of `_get_extension_hint`, is None exactly when no extension list contains the lower-cased suffix; otherwise it is the language of the first list, in table order, that contains it |
| Detector.HintFor | guess_lexer.py:536-551 | a hint exists only for a non-empty filename and a non-empty looked-up language name (`if filename:`, `if extension_hint and`); it is the extension lookup's language and quotes that filename; a non-empty filename whose suffix maps to a non-empty name always gives one |
| Detector.BestIn | guess_lexer.py:559 | `max` over the entries in table order: -1 exactly when no entry takes part; otherwise an entry of maximal score with every earlier entry strictly lower |
| Detector.Winner | guess_lexer.py:559 | None exactly when the board is empty; otherwise the first entry of maximal score, with its name, score and evidence |
| Detector.ScoreAll | guess_lexer.py:544-545 | one score and evidence list per language, in table order, each the language's own `_score_language` result |
| Detector.HintedBoard | guess_lexer.py:544-553 | a language is a candidate exactly when its score is positive; the hint only rescales and annotates an existing candidate |
| Detector.LanguageStage | guess_lexer.py:544-560 | no winner exactly when no language scores above zero; otherwise the winner scored positively, has the maximal hinted score, precedes every other maximum, and carries its hinted score and evidence |
| Detector.FrameworkBoard | guess_lexer.py:631-655 | a framework takes part exactly when it belongs to the language and is kept, with its own score and evidence |
| Detector.FrameworkStage | guess_lexer.py:626-660 | None exactly when no framework of the language is kept; otherwise the first kept framework of maximal score, with its evidence |
| Detector.DetectFramework | guess_lexer.py:626-663 | the framework result exists exactly when the stage has a winner, and has confidence min(score/5, 1) |
| Detector.FrameworkConfidenceInUnitRange | guess_lexer.py:661 | with positive weights, a detected framework's confidence lies in (0, 1] |
| Detector.Fuse | guess_lexer.py:560-571 | the final confidence never exceeds 1, and a framework of non-negative confidence never lowers it below min(score, 1) |
| Detector.FuseInUnitRange | guess_lexer.py:569-571 | a positive language score fused with a framework confidence that is not negative (or no framework) lies in (0, 1] |
| Detector.Analyze | guess_lexer.py:521-581 | blank code gives ("unknown", 0, None, ["Empty code"]); no scoring language gives ("unknown", 0, None, ["No patterns matched"]); confidence is at most 1; a reported framework belongs to the reported language |
| Detector.DecisionIffSomethingScores | guess_lexer.py:544-557 | the language decision is empty exactly when every language scores 0 |
| Detector.DecisionIsNamed | guess_lexer.py:559 | under a well-formed registry the decided language is never called "unknown" |
| Detector.UnknownExactlyWhenNothingScores | guess_lexer.py:532-557 | the result is "unknown" exactly when the code is blank or every language scores 0 |
| Detector.UnknownResultIsEmpty | guess_lexer.py:532-557 | an "unknown" result has confidence 0, no framework, and exactly one evidence line: "Empty code" or "No patterns matched" |
| Detector.DetectedLanguageIsSupported | guess_lexer.py:559-581 | a detected language is a key of the language table, with positive confidence and non-empty evidence |
| Detector.ConfidenceInUnitRange | guess_lexer.py:560-571 | the final confidence lies in [0, 1] |
| Detector.AnalyzeCombinesStages | guess_lexer.py:563-581 | the result names the language winner and that winner's framework; its evidence is the winner's evidence followed by the framework's; its confidence is min(min(score, 1) + 0.3·framework confidence, 1) |
| Detector.DefaultResultBounded | guess_lexer.py:521-581 | over the built-in tables: confidence in [0, 1], and the language is "unknown" or a supported one |
| Detector.DefaultResultUnknown | guess_lexer.py:521-581 | over the built-in tables: "unknown" exactly for blank code or when nothing scores; a framework only comes with a detected language |
| Detector.AnalyzeCode | guess_lexer.py:521-581 | `analyze_code` with the built-in tables: confidence in [0, 1]; language "unknown" or supported, "unknown" exactly when blank or nothing scores; a framework only with a detected language, and owned by it |
| HintEffects.HintTouchesOnlyHintedEntry | guess_lexer.py:551-553 | the hint adds and removes no candidate; other entries are untouched; the hinted entry's score is multiplied by 1.5 and gets exactly one extra evidence line, quoting the filename |
| HintEffects.HintWithoutCandidateIsIgnored | guess_lexer.py:551 | a hint naming no language that scored leaves the decision unchanged |
| HintEffects.HintNeverLowersLanguageScore | guess_lexer.py:551-560 | adding a hint never lowers the winning score or the language-stage confidence min(score, 1) |
| HintEffects.HintSwitchesOnlyToHintedLanguage | guess_lexer.py:551-559 | with a hint, the winner is the previous winner or the hinted language, never a third one |
| HintEffects.HintCannotOvertakeDominant | guess_lexer.py:551-559 | a language scoring more than 1.5 times another still wins against it when the other is hinted |
| HintEffects.HintCanLowerFinalConfidence | guess_lexer.py:551-571 | on a well-formed two-language registry, a hint moves the win to a language without a framework, and the final confidence drops from 0.81 to 0.72 |

## Left out

- Regular expressions are not modelled. `Matcher` is a parameter that stands
  for the match count of `re.findall` with `MULTILINE | IGNORECASE`. The
  pattern strings of the tables are kept verbatim as opaque strings.
- `analyze_file` (guess_lexer.py:665-680) is left out: it reads a file and
  turns read errors into an "unknown" result.
- `format_result` and the demo under `__main__` are left out: they only
  format and print.
- main.py, analyze_code.py and test_samples.py are not part of this model.
  They hold the command-line interface, a stdout wrapper and a sample corpus.
- Python floats are modelled as exact reals, so the model has no rounding.
  Under IEEE rounding, scores that are equal here may differ slightly, which
  can change tie-breaking between languages. Rounding also moves the zero
  floor, as the next two lines say.
- Scorer.ScoreLanguage: the formula `max(0, base - penalty)`
  (guess_lexer.py:620-622) is computed exactly. A difference that IEEE
  rounding leaves just above 0 is exactly 0 here. Example: no pattern match,
  3 present keywords, 4 anti-pattern matches, weight 1.0. Then
  `3*0.4 - 4*0.3` is 2.2e-16 in doubles, but `LanguageFormula(0, 3, 4, 1.0)`
  is 0.
- Detector.AnalyzeCode: because of that zero floor, a language the source
  reports with a near-zero confidence can be "unknown" in the model, since
  the candidate test `score > 0` (guess_lexer.py:546) fails. Example, on the
  built-in tables and without a filename:
  `"StatelessWidget StatelessWidget StatelessWidget StatelessWidget fn mut trait"`.
  Rust finds the keywords fn, mut and trait, has no pattern match, and its
  anti-pattern `StatelessWidget` matches 4 times. No other language has a
  hit. The source therefore returns "rust" with confidence about 2.2e-16,
  and the model returns "unknown" with confidence 0.
- `str.lower()` is modelled for ASCII only. Non-ASCII letters are left as they
  are.
- `os.path.splitext` follows the POSIX rules, with '/' as the only separator.
  The Windows rules are not modelled.
- Evidence lines are a datatype. `Evidence.Line` renders the source's
  f-strings. Of the rendered text, only that it determines the match count
  is proved (Scorer.LineDeterminesCount).
- Detector.UnknownExactlyWhenNothingScores requires a well-formed registry.
  A language named "unknown" would break the property, and the built-in
  tables have none (Tables.DefaultWellFormed).
- Detector.UnknownResultIsEmpty requires a well-formed registry for the same
  reason.
- Detector.DetectedLanguageIsSupported requires a well-formed registry. It
  needs positive weights and no language named "unknown".
- Detector.ConfidenceInUnitRange requires positive framework weights. A
  negative weight would give a negative framework confidence, and the source
  does not guard against it.
- Detector.FrameworkConfidenceInUnitRange requires positive framework weights,
  for the same reason.
- HintEffects.HintNeverLowersLanguageScore is stated for the language stage,
  not for the final confidence. The final-confidence version does not hold
  (HintEffects.HintCanLowerFinalConfidence).
