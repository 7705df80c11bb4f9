/**
  What the filename hint can and cannot do to the language decision. The
  hint multiplies the score of one language that already scored by 1.5 and
  adds one evidence line to it; these lemmas hold for every score table and
  every hint.
 */
module HintEffects {
  import opened Wrappers
  import opened Rules
  import opened Scorer
  import opened Detector

  /**
    The hint adds no candidate and removes none; every entry it does not
    name keeps its score and evidence; the entry it names keeps its place,
    its score is multiplied by 1.5, and exactly one evidence line, quoting
    the filename, is appended to it.
   */
  lemma HintTouchesOnlyHintedEntry(names: seq<string>, scores: seq<Scored>, h: Hint)
    requires |names| == |scores|
    ensures var hinted := HintedBoard(names, scores, Some(h));
      var plain := HintedBoard(names, scores, None);
      && (forall i :: 0 <= i < |scores| ==> (hinted[i].Some? <==> plain[i].Some?))
      && (forall i :: 0 <= i < |scores| && names[i] != h.language ==> hinted[i] == plain[i])
      && (forall i :: 0 <= i < |scores| && names[i] == h.language && plain[i].Some? ==>
            && plain[i].value == scores[i]
            && hinted[i].value.score == scores[i].score * 1.5
            && hinted[i].value.evidence == scores[i].evidence + [FileExtensionHint(h.filename)])
  {
  }

  /** A hint naming no language that scored leaves the decision exactly as it was. */
  lemma HintWithoutCandidateIsIgnored(names: seq<string>, scores: seq<Scored>, h: Hint)
    requires |names| == |scores|
    requires forall i :: 0 <= i < |scores| && scores[i].score > 0.0 ==> names[i] != h.language
    ensures LanguageStage(names, scores, Some(h)) == LanguageStage(names, scores, None)
  {
    var hinted := HintedBoard(names, scores, Some(h));
    var plain := HintedBoard(names, scores, None);
    assert forall i :: 0 <= i < |scores| ==> hinted[i] == plain[i];
    assert hinted == plain;
  }

  /** The winning score, and with it the language confidence `min(score, 1)`, never drops when a hint is added. */
  lemma HintNeverLowersLanguageScore(names: seq<string>, scores: seq<Scored>, h: Hint)
    requires |names| == |scores|
    requires LanguageStage(names, scores, None).Some?
    ensures LanguageStage(names, scores, Some(h)).Some?
    ensures LanguageStage(names, scores, None).value.score <= LanguageStage(names, scores, Some(h)).value.score
    ensures Min1(LanguageStage(names, scores, None).value.score) <= Min1(LanguageStage(names, scores, Some(h)).value.score)
  {
    var w0 := LanguageStage(names, scores, None).value;
    assert HintedScore(names, scores, Some(h), w0.index) >= HintedScore(names, scores, None, w0.index);
  }

  /**
    The hint either leaves the winner alone or makes the hinted language
    win: it never hands the decision to a third language.
   */
  lemma HintSwitchesOnlyToHintedLanguage(names: seq<string>, scores: seq<Scored>, h: Hint)
    requires |names| == |scores|
    requires LanguageStage(names, scores, None).Some?
    ensures LanguageStage(names, scores, Some(h)).Some?
    ensures
      var w0 := LanguageStage(names, scores, None).value;
      var w1 := LanguageStage(names, scores, Some(h)).value;
      w1.index == w0.index || w1.name == h.language
  {
    var w0 := LanguageStage(names, scores, None).value;
    var w1 := LanguageStage(names, scores, Some(h)).value;
    if w1.name != h.language {
      assert w1.score == HintedScore(names, scores, None, w1.index);
      assert HintedScore(names, scores, Some(h), w0.index) >= w0.score;
    }
  }

  /**
    The factor 1.5 bounds what the hint can do: a language scoring more than
    1.5 times another still beats that other when the other is hinted.
   */
  lemma HintCannotOvertakeDominant(names: seq<string>, scores: seq<Scored>, h: Hint, k: nat, l: nat)
    requires |names| == |scores|
    requires Unique(names)
    requires forall i :: 0 <= i < |scores| ==> scores[i].score >= 0.0
    requires k < |scores| && l < |scores|
    requires scores[k].score > scores[l].score * 1.5
    ensures LanguageStage(names, scores, Some(h)).Some?
    ensures LanguageStage(names, scores, Some(h)).value.index != l
    ensures LanguageStage(names, scores, Some(h)).value.name != names[l]
  {
    var w := LanguageStage(names, scores, Some(h)).value;
    assert HintedScore(names, scores, Some(h), k) <= w.score;
    if scores[l].score > 0.0 {
      assert HintedScore(names, scores, Some(h), l) < w.score;
    }
    assert w.index != l;
  }

  // A registry on which the hint lowers the final confidence.

  /**
    Language "a" (one pattern, weight 1) owns framework "fa"; language "b"
    (one pattern, weight 0.8) owns the suffix ".b".
   */
  const Example: Registry := Registry(
    [LanguageRules("a", [], ["pa"], [], 1.0), LanguageRules("b", [], ["pb"], [], 0.8)],
    [FrameworkRules("fa", "a", ["fa"], [], 1.0)],
    [ExtensionRule("b", [".b"])])

  /** Each language pattern matches once, the framework pattern five times. */
  const ExampleMatcher: Matcher := (p: string, t: string) => if p == "pa" || p == "pb" then 1 else if p == "fa" then 5 else 0

  lemma ExampleScores()
    ensures ScoreAll(ExampleMatcher, "x", Example.languages)[0].score == 0.6
    ensures ScoreAll(ExampleMatcher, "x", Example.languages)[1].score == 0.48
  {
    assert Hits(ExampleMatcher, "x", ["pa"]) == 1;
    assert Hits(ExampleMatcher, "x", ["pb"]) == 1;
    assert Hits(ExampleMatcher, "x", []) == 0;
  }

  lemma ExampleHint()
    ensures HintFor(Example, Some("f.b")) == Some(Hint("b", "f.b"))
  {
    assert Text.Lower("f.b") == "f.b";
    assert Text.LastIndexOf("f.b", '/') == -1;
    assert Text.LastIndexOf("f.b", '.') == 1;
    assert "f.b"[0] != '.';
    assert Suffix("f.b") == ".b";
  }

  /** Two candidates scoring 0.6 and 0.48: the first wins unhinted, the second once hinted. */
  lemma ExampleStage(scores: seq<Scored>)
    requires |scores| == 2 && scores[0].score == 0.6 && scores[1].score == 0.48
    ensures LanguageStage(["a", "b"], scores, None).Some?
    ensures LanguageStage(["a", "b"], scores, None).value.name == "a"
    ensures LanguageStage(["a", "b"], scores, None).value.score == 0.6
    ensures LanguageStage(["a", "b"], scores, Some(Hint("b", "f.b"))).Some?
    ensures LanguageStage(["a", "b"], scores, Some(Hint("b", "f.b"))).value.name == "b"
    ensures LanguageStage(["a", "b"], scores, Some(Hint("b", "f.b"))).value.score == 0.72
  {
    var names := ["a", "b"];
    assert HintedScore(names, scores, Some(Hint("b", "f.b")), 0) == 0.6;
    assert HintedScore(names, scores, Some(Hint("b", "f.b")), 1) == 0.72;
  }

  lemma ExampleNames()
    ensures Example.LanguageNames() == ["a", "b"]
  {
  }

  lemma ExampleDecisions()
    ensures Decide(Example, ExampleMatcher, "x", None).Some?
    ensures Decide(Example, ExampleMatcher, "x", None).value.name == "a"
    ensures Decide(Example, ExampleMatcher, "x", None).value.score == 0.6
    ensures Decide(Example, ExampleMatcher, "x", Some("f.b")).Some?
    ensures Decide(Example, ExampleMatcher, "x", Some("f.b")).value.name == "b"
    ensures Decide(Example, ExampleMatcher, "x", Some("f.b")).value.score == 0.72
  {
    ExampleScores();
    ExampleHint();
    ExampleNames();
    var scores := ScoreAll(ExampleMatcher, "x", Example.languages);
    ExampleStage(scores);
    assert HintFor(Example, None) == None;
  }

  lemma ExampleFrameworks()
    ensures DetectFramework(Example, ExampleMatcher, "x", "a").Some?
    ensures DetectFramework(Example, ExampleMatcher, "x", "a").value.confidence == 0.7
    ensures DetectFramework(Example, ExampleMatcher, "x", "b").None?
  {
    assert Hits(ExampleMatcher, "x", ["fa"]) == 5;
    assert Present("x", []) == 0;
    assert FrameworkStage(Example, ExampleMatcher, "x", "a").value.score == 3.5;
  }

  /**
    The hint does not make the final confidence monotone: on the example
    registry, without the hint "a" wins with 0.6, raised to 0.81 by its
    framework; with the file name "f.b" the hint makes "b" win with 0.72,
    and "b" has no framework, so the confidence drops.
   */
  lemma HintCanLowerFinalConfidence()
    ensures Example.WellFormed()
    ensures Analyze(Example, ExampleMatcher, "x", None).confidence == 0.81
    ensures Analyze(Example, ExampleMatcher, "x", Some("f.b")).confidence == 0.72
  {
    ExampleWellFormed();
    ExampleNotBlank();
    ExampleDecisions();
    ExampleFrameworks();
    AnalyzeCombinesStages(Example, ExampleMatcher, "x", None);
    AnalyzeCombinesStages(Example, ExampleMatcher, "x", Some("f.b"));
  }

  lemma ExampleWellFormed()
    ensures Example.WellFormed()
  {
    ExampleNames();
    assert Example.FrameworkNames() == ["fa"];
  }

  lemma ExampleNotBlank()
    ensures !Text.IsBlank("x")
  {
    assert Text.TrimStart("x") == "x";
    assert Text.TrimEnd("x") == "x";
  }
}
