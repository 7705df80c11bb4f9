/**
  The scorer: evaluates one rule record against one source text and turns
  match counts into a score and an ordered evidence list.

  Regular-expression matching is not modelled. A `Matcher` stands for
  `len(re.findall(pattern, text, re.MULTILINE | re.IGNORECASE))`: the number
  of non-overlapping matches of a pattern in a text. Every property below
  holds for every matcher.
 */
module Scorer {
  import opened Wrappers
  import opened Text
  import opened Rules

  type Matcher = (string, string) -> nat

  /** One line of evidence, as the engine records it. */
  datatype Evidence =
    | PatternMatch(pattern: string, count: nat)
    | KeywordFound(keyword: string)
    | AntiPatternFound(pattern: string, count: nat)
    | FileExtensionHint(filename: string)
    | FrameworkPattern(pattern: string)
    | FrameworkKeyword(keyword: string)
    | EmptyCode
    | NoPatternsMatched
  {
    /** The text the source renders for this line. */
    function Line(): string
    {
      match this
      case PatternMatch(p, n) => "Pattern match: " + p + " (" + NatToString(n) + " times)"
      case KeywordFound(k) => "Keyword found: " + k
      case AntiPatternFound(p, n) => "Anti-pattern found: " + p + " (-" + NatToString(n) + ")"
      case FileExtensionHint(f) => "File extension hint: " + f
      case FrameworkPattern(p) => "Framework pattern: " + p
      case FrameworkKeyword(k) => "Framework keyword: " + k
      case EmptyCode => "Empty code"
      case NoPatternsMatched => "No patterns matched"
    }
  }

  /** Which of the three pattern loops of the source is running. */
  datatype PatternGroup = LanguagePatterns | AntiPatterns | FrameworkPatterns

  /** Which of the two keyword loops of the source is running. */
  datatype KeywordGroup = LanguageKeywords | FrameworkKeywords

  function PatternLine(g: PatternGroup, pattern: string, count: nat): Evidence
  {
    match g
    case LanguagePatterns => PatternMatch(pattern, count)
    case AntiPatterns => AntiPatternFound(pattern, count)
    case FrameworkPatterns => FrameworkPattern(pattern)
  }

  function KeywordLine(g: KeywordGroup, keyword: string): Evidence
  {
    match g
    case LanguageKeywords => KeywordFound(keyword)
    case FrameworkKeywords => FrameworkKeyword(keyword)
  }

  /** The keyword test `keyword.lower() in code.lower()`. */
  predicate KeywordIn(keyword: string, code: string)
  {
    Contains(Lower(code), Lower(keyword))
  }

  // Reference definitions: what one rule list contributes, read off the list.

  /** Total number of matches of all `patterns` in `code`. */
  function Hits(m: Matcher, code: string, patterns: seq<string>): nat
  {
    if patterns == [] then 0 else m(patterns[0], code) + Hits(m, code, patterns[1..])
  }

  /** Number of `keywords` occurring in `code`: each counts once, however often it occurs. */
  function Present(code: string, keywords: seq<string>): nat
  {
    if keywords == [] then 0
    else (if KeywordIn(keywords[0], code) then 1 else 0) + Present(code, keywords[1..])
  }

  /** One line for each pattern that matches at least once, in table order. */
  function PatternLines(m: Matcher, code: string, g: PatternGroup, patterns: seq<string>): seq<Evidence>
  {
    if patterns == [] then []
    else
      var n := m(patterns[0], code);
      (if n > 0 then [PatternLine(g, patterns[0], n)] else []) + PatternLines(m, code, g, patterns[1..])
  }

  /** One line for each keyword occurring in `code`, in table order. */
  function KeywordLines(code: string, g: KeywordGroup, keywords: seq<string>): seq<Evidence>
  {
    if keywords == [] then []
    else
      (if KeywordIn(keywords[0], code) then [KeywordLine(g, keywords[0])] else [])
      + KeywordLines(code, g, keywords[1..])
  }

  // The source's loops: a counter and the shared evidence list, updated per item.

  datatype Tally = Tally(hits: nat, evidence: seq<Evidence>)

  /** The loop `for pattern in ...: matches = re.findall(...); if matches: ...`. */
  function ScanPatterns(m: Matcher, code: string, g: PatternGroup, patterns: seq<string>, acc: Tally): (r: Tally)
    ensures r.hits == acc.hits + Hits(m, code, patterns)
    ensures r.evidence == acc.evidence + PatternLines(m, code, g, patterns)
  {
    if patterns == [] then
      assert acc.evidence + [] == acc.evidence;
      acc
    else
      var n := m(patterns[0], code);
      var head := if n > 0 then [PatternLine(g, patterns[0], n)] else [];
      var next := Tally(acc.hits + n, acc.evidence + head);
      var r := ScanPatterns(m, code, g, patterns[1..], next);
      assert acc.evidence + head + PatternLines(m, code, g, patterns[1..])
          == acc.evidence + (head + PatternLines(m, code, g, patterns[1..]));
      r
  }

  /** The loop `for keyword in ...: if keyword.lower() in code.lower(): ...`. */
  function ScanKeywords(code: string, g: KeywordGroup, keywords: seq<string>, acc: Tally): (r: Tally)
    ensures r.hits == acc.hits + Present(code, keywords)
    ensures r.evidence == acc.evidence + KeywordLines(code, g, keywords)
  {
    if keywords == [] then
      assert acc.evidence + [] == acc.evidence;
      acc
    else
      var found := KeywordIn(keywords[0], code);
      var head := if found then [KeywordLine(g, keywords[0])] else [];
      var next := Tally(acc.hits + (if found then 1 else 0), acc.evidence + head);
      var r := ScanKeywords(code, g, keywords[1..], next);
      assert acc.evidence + head + KeywordLines(code, g, keywords[1..])
          == acc.evidence + (head + KeywordLines(code, g, keywords[1..]));
      r
  }

  /** Python's `max(0, x)`. */
  function Max0(x: real): real
  {
    if x > 0.0 then x else 0.0
  }

  /** Python's `min(x, 1.0)`. */
  function Min1(x: real): real
  {
    if x < 1.0 then x else 1.0
  }

  datatype Scored = Scored(score: real, evidence: seq<Evidence>)

  /**
    The language score for `pm` pattern matches, `km` present keywords and
    `am` anti-pattern matches under weight `w`.
   */
  function LanguageFormula(pm: nat, km: nat, am: nat, w: real): real
  {
    Max0((pm as real * 0.6 + km as real * 0.4) * w - am as real * 0.3)
  }

  /** The framework score for `pm` pattern matches and `km` present keywords under weight `w`. */
  function FrameworkFormula(pm: nat, km: nat, w: real): real
  {
    (pm as real * 0.7 + km as real * 0.3) * w
  }

  /**
    `_score_language`: patterns weigh 0.6 per match, present keywords 0.4
    each, both scaled by the language weight; every anti-pattern match
    costs 0.3; the result is floored at zero. Evidence lists the matched
    patterns, then the present keywords, then the matched anti-patterns.
   */
  function ScoreLanguage(m: Matcher, code: string, rules: LanguageRules): (r: Scored)
    ensures r.score >= 0.0
    ensures r.score == LanguageFormula(
      Hits(m, code, rules.patterns), Present(code, rules.keywords), Hits(m, code, rules.antiPatterns), rules.weight)
    ensures r.evidence ==
      PatternLines(m, code, LanguagePatterns, rules.patterns)
      + KeywordLines(code, LanguageKeywords, rules.keywords)
      + PatternLines(m, code, AntiPatterns, rules.antiPatterns)
  {
    var p := ScanPatterns(m, code, LanguagePatterns, rules.patterns, Tally(0, []));
    var k := ScanKeywords(code, LanguageKeywords, rules.keywords, Tally(0, p.evidence));
    var a := ScanPatterns(m, code, AntiPatterns, rules.antiPatterns, Tally(0, k.evidence));
    assert p.hits == Hits(m, code, rules.patterns);
    assert k.hits == Present(code, rules.keywords);
    assert a.hits == Hits(m, code, rules.antiPatterns);
    Scored(LanguageFormula(p.hits, k.hits, a.hits, rules.weight), a.evidence)
  }

  /**
    The body of the framework loop of `_detect_framework`: a framework is
    kept only when a pattern matches or a keyword occurs; its score weighs
    0.7 per pattern match and 0.3 per present keyword, scaled by the
    framework weight, with no penalty.
   */
  function ScoreFramework(m: Matcher, code: string, rules: FrameworkRules): (r: Option<Scored>)
    ensures r.Some? <==> Hits(m, code, rules.patterns) > 0 || Present(code, rules.keywords) > 0
    ensures r.Some? ==> r.value.score == FrameworkFormula(Hits(m, code, rules.patterns), Present(code, rules.keywords), rules.weight)
    ensures r.Some? ==> (r.value.evidence ==
      PatternLines(m, code, FrameworkPatterns, rules.patterns)
      + KeywordLines(code, FrameworkKeywords, rules.keywords))
  {
    var p := ScanPatterns(m, code, FrameworkPatterns, rules.patterns, Tally(0, []));
    var k := ScanKeywords(code, FrameworkKeywords, rules.keywords, Tally(0, p.evidence));
    if p.hits > 0 || k.hits > 0 then
      Some(Scored(FrameworkFormula(p.hits, k.hits, rules.weight), k.evidence))
    else
      None
  }

  // Properties of the reference definitions.

  /**
    The keyword test ignores case on both sides: it holds exactly when the
    lower-cased keyword occurs somewhere in the lower-cased code, and
    lower-casing either argument first changes nothing.
   */
  lemma KeywordInIgnoresCase(keyword: string, code: string)
    ensures KeywordIn(keyword, code) <==> exists i :: OccursAt(Lower(code), Lower(keyword), i)
    ensures KeywordIn(keyword, code) == KeywordIn(Lower(keyword), Lower(code))
  {
    ContainsIffOccurs(Lower(code), Lower(keyword));
    LowerIsFolded(keyword);
    LowerIsFolded(code);
  }

  lemma {:induction false} SameFrameSameMiddle(a: string, x: string, y: string, b: string)
    requires a + x + b == a + y + b
    ensures x == y
  {
    var l := a + x + b;
    assert |x| == |y|;
    assert x == l[|a|..|a| + |x|];
    assert y == (a + y + b)[|a|..|a| + |y|];
  }

  /**
    A rendered pattern or anti-pattern line determines its match count:
    two lines of the same kind for the same pattern read alike only when
    their counts agree.
   */
  lemma LineDeterminesCount(e1: Evidence, e2: Evidence)
    requires (e1.PatternMatch? && e2.PatternMatch?) || (e1.AntiPatternFound? && e2.AntiPatternFound?)
    requires e1.pattern == e2.pattern
    requires e1.Line() == e2.Line()
    ensures e1.count == e2.count
  {
    var d1 := NatToString(e1.count);
    var d2 := NatToString(e2.count);
    if e1.PatternMatch? {
      SameFrameSameMiddle("Pattern match: " + e1.pattern + " (", d1, d2, " times)");
    } else {
      SameFrameSameMiddle("Anti-pattern found: " + e1.pattern + " (-", d1, d2, ")");
    }
    NatToStringRoundTrip(e1.count);
    NatToStringRoundTrip(e2.count);
  }

  /**
    A pattern list yields evidence exactly when something in it matched,
    every line reports a count of at least one, and there is at most one
    line per pattern.
   */
  lemma {:induction false} PatternLinesReportMatches(m: Matcher, code: string, g: PatternGroup, patterns: seq<string>)
    ensures |PatternLines(m, code, g, patterns)| <= |patterns|
    ensures PatternLines(m, code, g, patterns) == [] <==> Hits(m, code, patterns) == 0
    ensures forall e :: e in PatternLines(m, code, g, patterns) && (e.PatternMatch? || e.AntiPatternFound?) ==> e.count >= 1
  {
    if patterns != [] {
      PatternLinesReportMatches(m, code, g, patterns[1..]);
    }
  }

  /**
    One keyword line per present keyword, so the keyword part of a score
    never exceeds the number of keywords, however often they occur.
   */
  lemma {:induction false} KeywordLinesCountPresent(code: string, g: KeywordGroup, keywords: seq<string>)
    ensures |KeywordLines(code, g, keywords)| == Present(code, keywords)
    ensures Present(code, keywords) <= |keywords|
  {
    if keywords != [] {
      KeywordLinesCountPresent(code, g, keywords[1..]);
    }
  }

  lemma {:induction false} HitsAppend(m: Matcher, code: string, a: seq<string>, b: seq<string>)
    ensures Hits(m, code, a + b) == Hits(m, code, a) + Hits(m, code, b)
  {
    if a == [] {
      assert a + b == b;
    } else {
      assert (a + b)[1..] == a[1..] + b;
      HitsAppend(m, code, a[1..], b);
    }
  }

  lemma {:induction false} PatternLinesAppend(m: Matcher, code: string, g: PatternGroup, a: seq<string>, b: seq<string>)
    ensures PatternLines(m, code, g, a + b) == PatternLines(m, code, g, a) + PatternLines(m, code, g, b)
  {
    if a == [] {
      assert a + b == b;
    } else {
      assert (a + b)[1..] == a[1..] + b;
      PatternLinesAppend(m, code, g, a[1..], b);
    }
  }

  /** A pattern without matches changes neither the match total nor the evidence. */
  lemma UnmatchedPatternAddsNothing(m: Matcher, code: string, g: PatternGroup, a: seq<string>, p: string, b: seq<string>)
    requires m(p, code) == 0
    ensures Hits(m, code, a + [p] + b) == Hits(m, code, a + b)
    ensures PatternLines(m, code, g, a + [p] + b) == PatternLines(m, code, g, a + b)
  {
    HitsAppend(m, code, a + [p], b);
    HitsAppend(m, code, a, [p]);
    HitsAppend(m, code, a, b);
    PatternLinesAppend(m, code, g, a + [p], b);
    PatternLinesAppend(m, code, g, a, [p]);
    PatternLinesAppend(m, code, g, a, b);
    assert PatternLines(m, code, g, [p]) == [];
  }

  /**
    A positive language score needs a positive weight and at least one
    pattern match or present keyword, so it always comes with evidence.
   */
  lemma PositiveScoreHasSupport(m: Matcher, code: string, rules: LanguageRules)
    requires ScoreLanguage(m, code, rules).score > 0.0
    ensures rules.weight > 0.0
    ensures Hits(m, code, rules.patterns) > 0 || Present(code, rules.keywords) > 0
    ensures |ScoreLanguage(m, code, rules).evidence| > 0
  {
    var pm := Hits(m, code, rules.patterns);
    var km := Present(code, rules.keywords);
    var am := Hits(m, code, rules.antiPatterns);
    PositiveFormula(pm, km, am, rules.weight);
    var pl := PatternLines(m, code, LanguagePatterns, rules.patterns);
    var kl := KeywordLines(code, LanguageKeywords, rules.keywords);
    var al := PatternLines(m, code, AntiPatterns, rules.antiPatterns);
    if pm > 0 {
      PatternLinesReportMatches(m, code, LanguagePatterns, rules.patterns);
      assert |pl| > 0;
    } else {
      KeywordLinesCountPresent(code, LanguageKeywords, rules.keywords);
      assert |kl| > 0;
    }
    var sc := ScoreLanguage(m, code, rules);
    assert sc.evidence == pl + kl + al;
    assert |sc.evidence| == |pl| + |kl| + |al|;
  }

  /** The language formula is positive only with a positive weight and some positive evidence. */
  lemma PositiveFormula(pm: nat, km: nat, am: nat, w: real)
    requires LanguageFormula(pm, km, am, w) > 0.0
    ensures w > 0.0 && (pm > 0 || km > 0)
  {
  }

  /** Under a positive weight, a framework that is kept scores above zero. */
  lemma KeptFrameworkScoresPositive(m: Matcher, code: string, rules: FrameworkRules)
    requires rules.weight > 0.0
    requires ScoreFramework(m, code, rules).Some?
    ensures ScoreFramework(m, code, rules).value.score > 0.0
  {
  }
}
