/**
  The pattern registry: the shape of the detection rules for languages and
  frameworks and of the extension table. The engine reads the rules in
  table order, so every table is an ordered sequence rather than a map.
 */
module Rules {

  /** The language reported when nothing could be detected. */
  const Unknown: string := "unknown"

  /** How one language is recognised. */
  datatype LanguageRules = LanguageRules(
    name: string,
    keywords: seq<string>,
    patterns: seq<string>,
    antiPatterns: seq<string>,
    weight: real)

  /** How one framework is recognised, and the language it belongs to. */
  datatype FrameworkRules = FrameworkRules(
    name: string,
    language: string,
    patterns: seq<string>,
    keywords: seq<string>,
    weight: real)

  /** The filename suffixes (with the leading dot, lower case) of one language. */
  datatype ExtensionRule = ExtensionRule(language: string, suffixes: seq<string>)

  /** No name occurs twice: the keys of a dictionary. */
  predicate Unique(names: seq<string>)
  {
    forall i, j :: 0 <= i < j < |names| ==> names[i] != names[j]
  }

  datatype Registry = Registry(
    languages: seq<LanguageRules>,
    frameworks: seq<FrameworkRules>,
    extensions: seq<ExtensionRule>)
  {
    /** The registry's language names in table order. */
    function LanguageNames(): (r: seq<string>)
      ensures |r| == |languages|
      ensures forall i :: 0 <= i < |r| ==> r[i] == languages[i].name
    {
      seq(|languages|, i requires 0 <= i < |languages| => languages[i].name)
    }

    /** The registry's framework names in table order. */
    function FrameworkNames(): (r: seq<string>)
      ensures |r| == |frameworks|
      ensures forall i :: 0 <= i < |frameworks| ==> r[i] == frameworks[i].name
    {
      seq(|frameworks|, i requires 0 <= i < |frameworks| => frameworks[i].name)
    }

    /**
      What a registry of dictionaries guarantees by construction, plus the
      self-consistency the tables are authored with: keys are unique,
      weights are positive, every framework belongs to a registered
      language, and no language is called "unknown".
     */
    predicate WellFormed()
    {
      && Unique(LanguageNames())
      && Unique(FrameworkNames())
      && (forall i :: 0 <= i < |languages| ==> languages[i].weight > 0.0 && languages[i].name != Unknown)
      && (forall i :: 0 <= i < |frameworks| ==> frameworks[i].weight > 0.0)
      && (forall i :: 0 <= i < |frameworks| ==> frameworks[i].language in LanguageNames())
    }
  }
}
