/**
  The detector: the two-stage decision of `GuessLexer.analyze_code`.
  Every language is scored, languages with a positive score become
  candidates in table order, the extension hint scales one candidate, the
  first candidate of maximal score wins, and the frameworks of the winner
  are scored to refine the result.

  The language decision is stated over the sequence of language scores and
  the hint, so that what the hint can do is a property of the decision
  alone, whatever the rules and the code are.
 */
module Detector {
  import opened Wrappers
  import opened Text
  import opened Rules
  import opened Scorer
  import Tables

  /** The value `analyze_code` returns. */
  datatype DetectionResult = DetectionResult(
    language: string,
    confidence: real,
    framework: Option<string>,
    evidence: seq<Evidence>)

  // The extension hint.

  /** The suffix `os.path.splitext(filename.lower())` yields. */
  function Suffix(filename: string): string
  {
    SplitExt(Lower(filename)).1
  }

  /** Position of the first rule at or after `i` whose suffix list holds `ext`, or -1. */
  function FirstWithSuffix(table: seq<ExtensionRule>, ext: string, i: nat): (k: int)
    requires i <= |table|
    ensures k == -1 || i <= k < |table|
    decreases |table| - i
  {
    if i == |table| then -1
    else if ext in table[i].suffixes then i
    else FirstWithSuffix(table, ext, i + 1)
  }

  /**
    `_get_extension_hint`: the first language of the extension table whose
    suffix list holds the filename's lower-cased suffix.
   */
  function ExtensionHint(table: seq<ExtensionRule>, filename: string): Option<string>
  {
    var k := FirstWithSuffix(table, Suffix(filename), 0);
    if k == -1 then None else Some(table[k].language)
  }

  /** The search from `i` finds the first rule at or after `i` that holds `ext`. */
  lemma {:induction false} FirstWithSuffixIsFirst(table: seq<ExtensionRule>, ext: string, i: nat)
    requires i <= |table|
    ensures var k := FirstWithSuffix(table, ext, i);
      && (k == -1 || ext in table[k].suffixes)
      && forall j :: i <= j < |table| && (k == -1 || j < k) ==> ext !in table[j].suffixes
    decreases |table| - i
  {
    if i < |table| && ext !in table[i].suffixes {
      FirstWithSuffixIsFirst(table, ext, i + 1);
    }
  }

  /**
    The hint is None exactly when no rule holds the suffix; otherwise it is
    the language of the first rule, in table order, that holds it.
   */
  lemma ExtensionHintIsFirstMatch(table: seq<ExtensionRule>, filename: string)
    ensures ExtensionHint(table, filename).None? <==>
      forall i :: 0 <= i < |table| ==> Suffix(filename) !in table[i].suffixes
    ensures ExtensionHint(table, filename).Some? ==> exists i :: (0 <= i < |table|
      && table[i].language == ExtensionHint(table, filename).value
      && Suffix(filename) in table[i].suffixes
      && forall j :: 0 <= j < i ==> Suffix(filename) !in table[j].suffixes)
  {
    FirstWithSuffixIsFirst(table, Suffix(filename), 0);
  }

  /** The extension hint of `analyze_code`: the hinted language and the filename quoted in its evidence. */
  datatype Hint = Hint(language: string, filename: string)

  /**
    The hint `analyze_code` acts on: none unless a non-empty filename is
    given (`if filename:`) and the lookup yields a non-empty language name
    (`if extension_hint and ...`).
   */
  function HintFor(reg: Registry, filename: Option<string>): (r: Option<Hint>)
    ensures r.Some? ==> filename.Some? && filename.value != [] && r.value.filename == filename.value
    ensures r.Some? ==> ExtensionHint(reg.extensions, filename.value) == Some(r.value.language)
    ensures r.Some? ==> r.value.language != []
    ensures filename.Some? && filename.value != [] ==>
      (ExtensionHint(reg.extensions, filename.value).Some? && ExtensionHint(reg.extensions, filename.value).value != [] ==> r.Some?)
  {
    if filename.Some? && filename.value != [] then
      match ExtensionHint(reg.extensions, filename.value)
      case None => None
      case Some(language) => if language == [] then None else Some(Hint(language, filename.value))
    else
      None
  }

  // Boards: every rule's outcome, in table order; the source's score dictionaries.

  /** A rule that scored: its table position, name, score and evidence. */
  datatype Candidate = Candidate(index: nat, name: string, score: real, evidence: seq<Evidence>)

  /**
    Python's `max(scores.keys(), key=scores.get)` over the first `n` board
    entries, visited in table order (the dictionary's insertion order): the
    current best is replaced only by a strictly greater score, so the
    result is the first entry of maximal score, or -1 when no entry took part.
   */
  function BestIn(board: seq<Option<Scored>>, n: nat): (k: int)
    requires n <= |board|
    ensures -1 <= k < n
    ensures k == -1 <==> forall i :: 0 <= i < n ==> board[i].None?
    ensures k >= 0 ==> board[k].Some?
    ensures k >= 0 ==> forall i :: 0 <= i < n && board[i].Some? ==> board[i].value.score <= board[k].value.score
    ensures k >= 0 ==> forall i :: 0 <= i < k && board[i].Some? ==> board[i].value.score < board[k].value.score
  {
    if n == 0 then -1
    else
      var k := BestIn(board, n - 1);
      if board[n - 1].None? then k
      else if k == -1 || board[n - 1].value.score > board[k].value.score then n - 1
      else k
  }

  /** The winning entry of a board, as a candidate: None when no entry took part. */
  function Winner(names: seq<string>, board: seq<Option<Scored>>): (r: Option<Candidate>)
    requires |names| == |board|
    ensures r.None? <==> forall i :: 0 <= i < |board| ==> board[i].None?
    ensures r.Some? ==>
      && r.value.index < |board|
      && board[r.value.index].Some?
      && r.value.name == names[r.value.index]
      && r.value.score == board[r.value.index].value.score
      && r.value.evidence == board[r.value.index].value.evidence
      && (forall i :: 0 <= i < |board| && board[i].Some? ==> board[i].value.score <= r.value.score)
      && (forall i :: 0 <= i < r.value.index && board[i].Some? ==> board[i].value.score < r.value.score)
  {
    var k := BestIn(board, |board|);
    if k == -1 then None
    else Some(Candidate(k, names[k], board[k].value.score, board[k].value.evidence))
  }

  // The language stage.

  /** Every language's score and evidence, in table order: the calls of the scoring loop. */
  function ScoreAll(m: Matcher, code: string, langs: seq<LanguageRules>): (r: seq<Scored>)
    ensures |r| == |langs|
    ensures forall i :: 0 <= i < |langs| ==> r[i] == ScoreLanguage(m, code, langs[i])
  {
    seq(|langs|, i requires 0 <= i < |langs| => ScoreLanguage(m, code, langs[i]))
  }

  /** The hint names entry `i`. */
  predicate Hinted(names: seq<string>, hint: Option<Hint>, i: nat)
    requires i < |names|
  {
    hint.Some? && hint.value.language == names[i]
  }

  /** The score of entry `i` once the hint is applied. */
  function HintedScore(names: seq<string>, scores: seq<Scored>, hint: Option<Hint>, i: nat): real
    requires |names| == |scores| && i < |scores|
  {
    if Hinted(names, hint, i) then scores[i].score * 1.5 else scores[i].score
  }

  /** The evidence of entry `i` once the hint is applied. */
  function HintedEvidence(names: seq<string>, scores: seq<Scored>, hint: Option<Hint>, i: nat): seq<Evidence>
    requires |names| == |scores| && i < |scores|
  {
    if Hinted(names, hint, i) then scores[i].evidence + [FileExtensionHint(hint.value.filename)] else scores[i].evidence
  }

  /**
    `language_scores` after the hint: an entry takes part exactly when its
    score is positive (`if score > 0`), and `language_scores[hint] *= 1.5`
    with its evidence line touches only an entry that already takes part.
   */
  function HintedBoard(names: seq<string>, scores: seq<Scored>, hint: Option<Hint>): (r: seq<Option<Scored>>)
    requires |names| == |scores|
    ensures |r| == |scores|
    ensures forall i :: 0 <= i < |scores| ==> (r[i].Some? <==> scores[i].score > 0.0)
    ensures forall i :: 0 <= i < |scores| && r[i].Some? ==>
      r[i].value == Scored(HintedScore(names, scores, hint, i), HintedEvidence(names, scores, hint, i))
  {
    seq(|scores|, i requires 0 <= i < |scores| =>
      if scores[i].score > 0.0
      then Some(Scored(HintedScore(names, scores, hint, i), HintedEvidence(names, scores, hint, i)))
      else None)
  }

  /**
    The language decision of `analyze_code`: None when no language scores
    above zero; otherwise the winner is a positively scored entry of
    maximal hinted score, the first such entry on ties, reported with its
    hinted score and evidence.
   */
  function LanguageStage(names: seq<string>, scores: seq<Scored>, hint: Option<Hint>): (r: Option<Candidate>)
    requires |names| == |scores|
    ensures r.None? <==> forall i :: 0 <= i < |scores| ==> scores[i].score <= 0.0
    ensures r.Some? ==>
      && r.value.index < |scores|
      && scores[r.value.index].score > 0.0
      && r.value.name == names[r.value.index]
      && r.value.score == HintedScore(names, scores, hint, r.value.index)
      && r.value.evidence == HintedEvidence(names, scores, hint, r.value.index)
      && (forall i :: 0 <= i < |scores| ==> HintedScore(names, scores, hint, i) <= r.value.score)
      && (forall i :: 0 <= i < r.value.index ==> HintedScore(names, scores, hint, i) < r.value.score)
  {
    var board := HintedBoard(names, scores, hint);
    var r := Winner(names, board);
    assert r.Some? ==> r.value.score > 0.0;
    assert r.Some? ==> forall i :: 0 <= i < |scores| && board[i].None? ==> HintedScore(names, scores, hint, i) <= 0.0;
    r
  }

  // The framework stage.

  /** Framework entry `i` belongs to `language` and has at least one hit. */
  predicate Kept(m: Matcher, code: string, fws: seq<FrameworkRules>, language: string, i: nat)
    requires i < |fws|
  {
    fws[i].language == language && ScoreFramework(m, code, fws[i]).Some?
  }

  /** `framework_scores` for `language`: frameworks of other languages take no part. */
  function FrameworkBoard(m: Matcher, code: string, fws: seq<FrameworkRules>, language: string): (r: seq<Option<Scored>>)
    ensures |r| == |fws|
    ensures forall i :: 0 <= i < |fws| ==> (r[i].Some? <==> Kept(m, code, fws, language, i))
    ensures forall i :: 0 <= i < |fws| && r[i].Some? ==> r[i] == ScoreFramework(m, code, fws[i])
  {
    seq(|fws|, i requires 0 <= i < |fws| => if fws[i].language == language then ScoreFramework(m, code, fws[i]) else None)
  }

  /**
    The winning framework of `language`: None when no framework of that
    language has a hit; otherwise the kept entry of maximal score, the
    first such entry on ties.
   */
  function FrameworkStage(reg: Registry, m: Matcher, code: string, language: string): (r: Option<Candidate>)
    ensures r.None? <==> forall i :: 0 <= i < |reg.frameworks| ==> !Kept(m, code, reg.frameworks, language, i)
    ensures r.Some? ==>
      && r.value.index < |reg.frameworks|
      && Kept(m, code, reg.frameworks, language, r.value.index)
      && r.value.name == reg.frameworks[r.value.index].name
      && r.value.score == ScoreFramework(m, code, reg.frameworks[r.value.index]).value.score
      && r.value.evidence == ScoreFramework(m, code, reg.frameworks[r.value.index]).value.evidence
      && (forall i :: 0 <= i < |reg.frameworks| && Kept(m, code, reg.frameworks, language, i) ==>
            ScoreFramework(m, code, reg.frameworks[i]).value.score <= r.value.score)
      && (forall i :: 0 <= i < r.value.index && Kept(m, code, reg.frameworks, language, i) ==>
            ScoreFramework(m, code, reg.frameworks[i]).value.score < r.value.score)
  {
    Winner(reg.FrameworkNames(), FrameworkBoard(m, code, reg.frameworks, language))
  }

  /** What `_detect_framework` returns: the framework, its confidence and its evidence. */
  datatype FrameworkMatch = FrameworkMatch(name: string, confidence: real, evidence: seq<Evidence>)

  /**
    `_detect_framework`: the winning framework's raw score is normalised by
    5 and capped at 1.
   */
  function DetectFramework(reg: Registry, m: Matcher, code: string, language: string): (r: Option<FrameworkMatch>)
    ensures r.None? <==> FrameworkStage(reg, m, code, language).None?
    ensures r.Some? ==>
      var w := FrameworkStage(reg, m, code, language).value;
      && r.value.name == w.name
      && r.value.confidence == Min1(w.score / 5.0)
      && r.value.evidence == w.evidence
  {
    match FrameworkStage(reg, m, code, language)
    case None => None
    case Some(w) => Some(FrameworkMatch(w.name, Min1(w.score / 5.0), w.evidence))
  }

  /** With positive framework weights, a detected framework has a confidence in (0, 1]. */
  lemma FrameworkConfidenceInUnitRange(reg: Registry, m: Matcher, code: string, language: string)
    requires forall i :: 0 <= i < |reg.frameworks| ==> reg.frameworks[i].weight > 0.0
    ensures DetectFramework(reg, m, code, language).Some? ==>
      0.0 < DetectFramework(reg, m, code, language).value.confidence <= 1.0
  {
    var s := FrameworkStage(reg, m, code, language);
    if s.Some? {
      KeptFrameworkScoresPositive(m, code, reg.frameworks[s.value.index]);
    }
  }

  // The whole analysis.

  /**
    The final confidence: the capped language score, raised by 0.3 of the
    framework confidence and capped again. It never exceeds 1, and a
    framework of non-negative confidence never lowers it below the capped
    language score.
   */
  function Fuse(score: real, framework: Option<FrameworkMatch>): (r: real)
    ensures r <= 1.0
    ensures (framework.Some? ==> framework.value.confidence >= 0.0) ==> Min1(score) <= r
  {
    if framework.Some? then Min1(Min1(score) + framework.value.confidence * 0.3) else Min1(score)
  }

  /** A positive language score fused with a non-negative framework confidence gives a confidence in (0, 1]. */
  lemma FuseInUnitRange(score: real, framework: Option<FrameworkMatch>)
    requires score > 0.0
    requires framework.Some? ==> framework.value.confidence >= 0.0
    ensures 0.0 < Fuse(score, framework) <= 1.0
  {
  }

  /** The language decision `analyze_code` takes for `code` under `reg`. */
  function Decide(reg: Registry, m: Matcher, code: string, filename: Option<string>): Option<Candidate>
  {
    LanguageStage(reg.LanguageNames(), ScoreAll(m, code, reg.languages), HintFor(reg, filename))
  }

  /** `analyze_code` over the rules of `reg`. */
  function Analyze(reg: Registry, m: Matcher, code: string, filename: Option<string>): (r: DetectionResult)
    ensures IsBlank(code) ==> r == DetectionResult(Unknown, 0.0, None, [EmptyCode])
    ensures !IsBlank(code) && (forall i :: 0 <= i < |reg.languages| ==> ScoreLanguage(m, code, reg.languages[i]).score == 0.0)
      ==> r == DetectionResult(Unknown, 0.0, None, [NoPatternsMatched])
    ensures r.confidence <= 1.0
    ensures r.framework.Some? ==> exists i :: (0 <= i < |reg.frameworks|
      && reg.frameworks[i].name == r.framework.value && reg.frameworks[i].language == r.language)
  {
    if IsBlank(code) then
      DetectionResult(Unknown, 0.0, None, [EmptyCode])
    else
      match Decide(reg, m, code, filename)
      case None => DetectionResult(Unknown, 0.0, None, [NoPatternsMatched])
      case Some(w) =>
        var f := DetectFramework(reg, m, code, w.name);
        match f
        case None => DetectionResult(w.name, Fuse(w.score, f), None, w.evidence)
        case Some(fm) => DetectionResult(w.name, Fuse(w.score, f), Some(fm.name), w.evidence + fm.evidence)
  }

  /**
    Under a well-formed registry the result is "unknown" exactly for blank
    code or when no language scores above zero.
   */
  lemma UnknownExactlyWhenNothingScores(reg: Registry, m: Matcher, code: string, filename: Option<string>)
    requires reg.WellFormed()
    ensures Analyze(reg, m, code, filename).language == Unknown <==>
      IsBlank(code) || forall i :: 0 <= i < |reg.languages| ==> ScoreLanguage(m, code, reg.languages[i]).score == 0.0
  {
    DecisionIffSomethingScores(reg, m, code, filename);
    DecisionIsNamed(reg, m, code, filename);
    AnalyzeCombinesStages(reg, m, code, filename);
  }

  /** The language decision is empty exactly when every language scores 0. */
  lemma DecisionIffSomethingScores(reg: Registry, m: Matcher, code: string, filename: Option<string>)
    ensures Decide(reg, m, code, filename).None? <==>
      forall i :: 0 <= i < |reg.languages| ==> ScoreLanguage(m, code, reg.languages[i]).score == 0.0
  {
    var scores := ScoreAll(m, code, reg.languages);
    assert forall i :: 0 <= i < |reg.languages| ==> scores[i] == ScoreLanguage(m, code, reg.languages[i]);
  }

  /** Under a well-formed registry the decided language is never called "unknown". */
  lemma DecisionIsNamed(reg: Registry, m: Matcher, code: string, filename: Option<string>)
    requires reg.WellFormed()
    ensures Decide(reg, m, code, filename).Some? ==> Decide(reg, m, code, filename).value.name != Unknown
  {
    var d := Decide(reg, m, code, filename);
    if d.Some? {
      assert reg.LanguageNames()[d.value.index] == d.value.name;
    }
  }

  /**
    Under a well-formed registry an "unknown" result has confidence 0, no
    framework and a single evidence line saying why.
   */
  lemma UnknownResultIsEmpty(reg: Registry, m: Matcher, code: string, filename: Option<string>)
    requires reg.WellFormed()
    requires Analyze(reg, m, code, filename).language == Unknown
    ensures Analyze(reg, m, code, filename).confidence == 0.0
    ensures Analyze(reg, m, code, filename).framework.None?
    ensures Analyze(reg, m, code, filename).evidence in {[EmptyCode], [NoPatternsMatched]}
  {
  }

  /**
    A detected language is a registered one, reported with positive
    confidence and with evidence.
   */
  lemma DetectedLanguageIsSupported(reg: Registry, m: Matcher, code: string, filename: Option<string>)
    requires reg.WellFormed()
    ensures var r := Analyze(reg, m, code, filename);
      r.language != Unknown ==> r.language in reg.LanguageNames() && r.confidence > 0.0 && r.evidence != []
  {
    var d := Decide(reg, m, code, filename);
    if !IsBlank(code) && d.Some? {
      var scores := ScoreAll(m, code, reg.languages);
      var w := d.value;
      assert reg.LanguageNames()[w.index] == w.name;
      var f := DetectFramework(reg, m, code, w.name);
      FrameworkConfidenceInUnitRange(reg, m, code, w.name);
      FuseInUnitRange(w.score, f);
      PositiveScoreHasSupport(m, code, reg.languages[w.index]);
      assert |w.evidence| >= |scores[w.index].evidence|;
    }
  }

  /** With positive framework weights the confidence lies in [0, 1]. */
  lemma ConfidenceInUnitRange(reg: Registry, m: Matcher, code: string, filename: Option<string>)
    requires forall i :: 0 <= i < |reg.frameworks| ==> reg.frameworks[i].weight > 0.0
    ensures 0.0 <= Analyze(reg, m, code, filename).confidence <= 1.0
  {
    var s := Decide(reg, m, code, filename);
    if !IsBlank(code) && s.Some? {
      var f := DetectFramework(reg, m, code, s.value.name);
      FrameworkConfidenceInUnitRange(reg, m, code, s.value.name);
      FuseInUnitRange(s.value.score, f);
    }
  }

  /**
    How the stages combine: the result names the language decision's
    winner and that winner's best framework; its evidence is the winner's
    evidence followed by the framework's; its confidence fuses the two.
   */
  lemma AnalyzeCombinesStages(reg: Registry, m: Matcher, code: string, filename: Option<string>)
    ensures !IsBlank(code) && Decide(reg, m, code, filename).Some? ==>
      var w := Decide(reg, m, code, filename).value;
      var f := DetectFramework(reg, m, code, w.name);
      var r := Analyze(reg, m, code, filename);
      && r.language == w.name
      && r.framework == (if f.Some? then Some(f.value.name) else None)
      && r.evidence == w.evidence + (if f.Some? then f.value.evidence else [])
      && r.confidence == Fuse(w.score, f)
  {
  }

  /** Over the built-in tables the confidence lies in [0, 1] and a detected language is a supported one. */
  lemma DefaultResultBounded(m: Matcher, code: string, filename: Option<string>)
    ensures 0.0 <= Analyze(Tables.Default, m, code, filename).confidence <= 1.0
    ensures Analyze(Tables.Default, m, code, filename).language == Unknown
      || Analyze(Tables.Default, m, code, filename).language in Tables.Default.LanguageNames()
  {
    Tables.DefaultWellFormed();
    ConfidenceInUnitRange(Tables.Default, m, code, filename);
    if Analyze(Tables.Default, m, code, filename).language != Unknown {
      DetectedLanguageIsSupported(Tables.Default, m, code, filename);
    }
  }

  /**
    Over the built-in tables the result is "unknown" exactly when the code
    is blank or no language scores, and a reported framework comes with a
    detected language.
   */
  lemma DefaultResultUnknown(m: Matcher, code: string, filename: Option<string>)
    ensures Analyze(Tables.Default, m, code, filename).language == Unknown <==>
      IsBlank(code) || forall i :: 0 <= i < |Tables.Default.languages| ==>
        ScoreLanguage(m, code, Tables.Default.languages[i]).score == 0.0
    ensures Analyze(Tables.Default, m, code, filename).framework.Some? ==>
      Analyze(Tables.Default, m, code, filename).language != Unknown
  {
    Tables.DefaultWellFormed();
    UnknownExactlyWhenNothingScores(Tables.Default, m, code, filename);
    if Analyze(Tables.Default, m, code, filename).language == Unknown {
      UnknownResultIsEmpty(Tables.Default, m, code, filename);
    }
  }

  /** `GuessLexer().analyze_code(code, filename)`: the analysis over the built-in tables. */
  function AnalyzeCode(m: Matcher, code: string, filename: Option<string>): (r: DetectionResult)
    ensures 0.0 <= r.confidence <= 1.0
    ensures r.language == Unknown || r.language in Tables.Default.LanguageNames()
    ensures r.language == Unknown <==>
      IsBlank(code) || forall i :: 0 <= i < |Tables.Default.languages| ==>
        ScoreLanguage(m, code, Tables.Default.languages[i]).score == 0.0
    ensures r.framework.Some? ==> r.language != Unknown
    ensures r.framework.Some? ==> exists i :: (0 <= i < |Tables.Default.frameworks|
      && Tables.Default.frameworks[i].name == r.framework.value && Tables.Default.frameworks[i].language == r.language)
  {
    DefaultResultBounded(m, code, filename);
    DefaultResultUnknown(m, code, filename);
    Analyze(Tables.Default, m, code, filename)
  }
}
