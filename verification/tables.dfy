/**
  The detection rules as the source authors them: seventeen languages,
  nine frameworks and the extension table, each in the order in which the
  engine walks it. Regular expressions are kept as their source text; the
  engine hands them to the matching oracle unchanged.
 */
module Tables {
  import opened Rules

  /** `python`: guess_lexer.py:42-56 */
  const Python: LanguageRules := LanguageRules(
    "python",
    ["def", "class", "import", "from", "if __name__", "elif", "lambda", "yield"],
    [
      @"^\s*def\s+\w+\s*\(", @"^\s*class\s+\w+", @"^\s*import\s+\w+",
      @"^\s*from\s+\w+\s+import", @"if\s+__name__\s*==\s*[\'""]__main__[\'""]",
      @"^\s*#.*python", @"print\s*\(", @"^\s*@\w+"
    ],
    [@"console\.log", @"function\s*\(", @"var\s+\w+"],
    1.0)

  /** `javascript`: guess_lexer.py:57-73 */
  const JavaScript: LanguageRules := LanguageRules(
    "javascript",
    ["function", "var", "let", "const", "console.log", "require", "module.exports"],
    [
      @"function\s+\w+\s*\(", @"console\.log\s*\(", @"var\s+\w+\s*=", @"let\s+\w+\s*=",
      @"const\s+\w+\s*=", @"require\s*\([\'""]", @"module\.exports", "=>", @"\.then\s*\(",
      @"async\s+function"
    ],
    [@"def\s+\w+", @"class\s+\w+.*:", @"import\s+\w+"],
    1.0)

  /** `typescript`: guess_lexer.py:74-87 */
  const TypeScript: LanguageRules := LanguageRules(
    "typescript",
    ["interface", "type", "enum", "namespace", "declare"],
    [
      @"interface\s+\w+", @"type\s+\w+\s*=", @"enum\s+\w+",
      @":\s*\w+(\[\])?(\s*\|\s*\w+)*\s*[=;]", @"<\w+>", @"declare\s+", @"namespace\s+\w+"
    ],
    [],
    1.2)

  /** `java`: guess_lexer.py:88-101 */
  const Java: LanguageRules := LanguageRules(
    "java",
    ["public class", "private", "protected", "static", "void", "import java"],
    [
      @"public\s+class\s+\w+", @"private\s+\w+\s+\w+", @"protected\s+\w+\s+\w+",
      @"public\s+static\s+void\s+main", @"import\s+java\.", @"@\w+\s*\n\s*public",
      @"System\.out\.println"
    ],
    [@"def\s+\w+", @"function\s+\w+"],
    1.0)

  /** `csharp`: guess_lexer.py:102-115 */
  const CSharp: LanguageRules := LanguageRules(
    "csharp",
    ["using", "namespace", "class", "static void Main", "public", "private"],
    [
      @"using\s+\w+;", @"namespace\s+\w+", @"public\s+class\s+\w+", @"static\s+void\s+Main",
      @"Console\.WriteLine", @"\[assembly:", "#region"
    ],
    [@"import\s+", @"def\s+\w+"],
    1.0)

  /** `cpp`: guess_lexer.py:116-129 */
  const Cpp: LanguageRules := LanguageRules(
    "cpp",
    ["#include", "using namespace", "int main", "std::", "class"],
    [
      @"#include\s*<\w+>", @"using\s+namespace\s+std", @"int\s+main\s*\(", @"std::\w+",
      @"cout\s*<<", @"cin\s*>>", @"class\s+\w+\s*{"
    ],
    [@"def\s+\w+", @"import\s+"],
    1.0)

  /** `c`: guess_lexer.py:130-142 */
  const C: LanguageRules := LanguageRules(
    "c",
    ["#include", "int main", "printf", "scanf", "malloc"],
    [
      @"#include\s*<\w+\.h>", @"int\s+main\s*\(", @"printf\s*\(", @"scanf\s*\(",
      @"malloc\s*\(", @"free\s*\("
    ],
    [@"class\s+\w+", @"using\s+namespace", @"def\s+\w+"],
    1.0)

  /** `go`: guess_lexer.py:143-156 */
  const Go: LanguageRules := LanguageRules(
    "go",
    ["package", "import", "func", "var", "const", "type"],
    [
      @"package\s+\w+", @"import\s*\(", @"func\s+\w+\s*\(", @"func\s+main\s*\(\s*\)",
      @"fmt\.Print", ":=", @"go\s+\w+\("
    ],
    [@"def\s+\w+", @"class\s+\w+"],
    1.0)

  /** `rust`: guess_lexer.py:157-171 */
  const Rust: LanguageRules := LanguageRules(
    "rust",
    ["fn", "let", "mut", "impl", "trait", "use"],
    [
      @"fn\s+\w+\s*\(", @"let\s+\w+\s*=", @"let\s+mut\s+\w+", @"impl\s+\w+", @"trait\s+\w+",
      @"use\s+\w+::", @"println!\s*\(", @"#\[derive\("
    ],
    [
      @"def\s+\w+", @"function\s+\w+", @"import\s+[\'""]package:", @"class\s+\w+\s+extends",
      "StatelessWidget", "StatefulWidget"
    ],
    1.0)

  /** `ruby`: guess_lexer.py:172-186 */
  const Ruby: LanguageRules := LanguageRules(
    "ruby",
    ["def", "class", "end", "require", "puts", "attr_accessor"],
    [
      @"def\s+\w+", @"class\s+\w+", @"end\s*$", @"require\s+[\'""]", @"puts\s+",
      @"attr_accessor\s+", @"@\w+", @"=>\s*"
    ],
    [@"def\s+\w+\s*\(.*\):", @"import\s+"],
    1.0)

  /** `php`: guess_lexer.py:187-201 */
  const Php: LanguageRules := LanguageRules(
    "php",
    ["<?php", "function", "class", "echo", "$", "require_once"],
    [
      @"<\?php", @"function\s+\w+\s*\(", @"class\s+\w+", @"echo\s+", @"\$\w+",
      @"require_once\s+", @"->\w+", @"public\s+function"
    ],
    [@"def\s+\w+", @"import\s+"],
    1.0)

  /** `swift`: guess_lexer.py:202-216 */
  const Swift: LanguageRules := LanguageRules(
    "swift",
    ["func", "var", "let", "import", "class", "struct"],
    [
      @"func\s+\w+\s*\(", @"var\s+\w+\s*:", @"let\s+\w+\s*=", @"import\s+\w+",
      @"class\s+\w+\s*:", @"struct\s+\w+", @"print\s*\(", @"@\w+\s*\n"
    ],
    [
      @"def\s+\w+", @"function\s+\w+", @"import\s+[\'""]package:", "StatelessWidget",
      "StatefulWidget"
    ],
    1.0)

  /** `kotlin`: guess_lexer.py:217-230 */
  const Kotlin: LanguageRules := LanguageRules(
    "kotlin",
    ["fun", "val", "var", "class", "object", "package"],
    [
      @"fun\s+\w+\s*\(", @"val\s+\w+\s*=", @"var\s+\w+\s*=", @"class\s+\w+", @"object\s+\w+",
      @"package\s+\w+", @"println\s*\("
    ],
    [
      @"def\s+\w+", @"function\s+\w+", @"import\s+[\'""]package:", "StatelessWidget",
      "StatefulWidget"
    ],
    1.0)

  /** `sql`: guess_lexer.py:231-245 */
  const Sql: LanguageRules := LanguageRules(
    "sql",
    ["SELECT", "FROM", "WHERE", "INSERT", "UPDATE", "DELETE", "CREATE"],
    [
      @"SELECT\s+.*FROM", @"INSERT\s+INTO", @"UPDATE\s+\w+\s+SET", @"DELETE\s+FROM",
      @"CREATE\s+TABLE", @"ALTER\s+TABLE", @"DROP\s+TABLE", @"WHERE\s+\w+\s*="
    ],
    [@"def\s+\w+", @"function\s+\w+", @"class\s+\w+"],
    1.0)

  /** `html`: guess_lexer.py:246-260 */
  const Html: LanguageRules := LanguageRules(
    "html",
    ["<html>", "<head>", "<body>", "<div>", "<script>"],
    [
      @"<!DOCTYPE\s+html>", "<html.*>", "<head>", "<body.*>", "<div.*>", "<script.*>",
      @"<link\s+.*rel=", @"<meta\s+.*>"
    ],
    [@"def\s+\w+", @"function\s+\w+(?!\s*\()"],
    1.0)

  /** `css`: guess_lexer.py:261-274 */
  const Css: LanguageRules := LanguageRules(
    "css",
    ["{", "}", ":", ";", "@media", "@import"],
    [
      @"\w+\s*\{[^}]*\}", @"@media\s*\(", @"@import\s+", @"#\w+\s*\{", @"\.\w+\s*\{",
      @":\w+\s*\{", @"\w+:\s*\w+;"
    ],
    [@"def\s+\w+", @"function\s+\w+", @"class\s+\w+(?!\s*\{)"],
    1.0)

  /** `dart`: guess_lexer.py:275-305 */
  const Dart: LanguageRules := LanguageRules(
    "dart",
    [
      "void", "main", "class", "import", "library", "part", "abstract", "extends",
      "implements"
    ],
    [
      @"void\s+main\s*\(\s*\)", @"import\s+[\'""]package:", @"import\s+[\'""]dart:",
      @"class\s+\w+\s+extends\s+\w+", @"class\s+\w+\s+implements\s+\w+",
      @"abstract\s+class\s+\w+", @"library\s+\w+;", @"part\s+of\s+\w+;",
      @"part\s+[\'""][^\'\""]+\.dart[\'""];", "@override", @"final\s+\w+", @"const\s+\w+",
      @"var\s+\w+\s*=", @"\w+\?\s+\w+", @"\w+<\w+>", @"List<\w+>", @"Map<\w+,\s*\w+>",
      @"Set<\w+>", @"Future<\w+>", @"Stream<\w+>", @"async\s*\{", @"await\s+\w+",
      @"=>\s*\w+", @"print\s*\("
    ],
    [@"def\s+\w+", @"function\s+\w+", @"console\.log", @"System\.out\.println"],
    1.0)

  /** `react`: guess_lexer.py:311-325 */
  const ReactFramework: FrameworkRules := FrameworkRules(
    "react",
    "javascript",
    [
      @"import\s+.*from\s+[\'""]react[\'""]", @"React\.Component", @"useState\s*\(",
      @"useEffect\s*\(", "jsx", "className=", @"<\w+.*>.*</\w+>", @"return\s*\("
    ],
    ["React", "useState", "useEffect", "Component", "jsx"],
    1.2)

  /** `vue`: guess_lexer.py:326-339 */
  const VueFramework: FrameworkRules := FrameworkRules(
    "vue",
    "javascript",
    [
      @"import\s+.*from\s+[\'""]vue[\'""]", @"Vue\.component", "<template>", "<script>",
      "v-if=", "v-for=", "@click="
    ],
    ["Vue", "template", "v-if", "v-for"],
    1.2)

  /** `angular`: guess_lexer.py:340-352 */
  const AngularFramework: FrameworkRules := FrameworkRules(
    "angular",
    "typescript",
    [
      @"import\s+.*from\s+[\'""]@angular", @"@Component\s*\(", @"@Injectable\s*\(",
      @"@NgModule\s*\(", @"selector:\s*[\'""]", @"templateUrl:\s*[\'""]"
    ],
    ["@Component", "@Injectable", "@NgModule", "Angular"],
    1.2)

  /** `django`: guess_lexer.py:353-366 */
  const DjangoFramework: FrameworkRules := FrameworkRules(
    "django",
    "python",
    [
      @"from\s+django", @"import\s+django", @"models\.Model", "HttpResponse",
      @"render\s*\(", @"urlpatterns\s*=", "@login_required"
    ],
    ["django", "models", "HttpResponse", "urlpatterns"],
    1.2)

  /** `flask`: guess_lexer.py:367-379 */
  const FlaskFramework: FrameworkRules := FrameworkRules(
    "flask",
    "python",
    [
      @"from\s+flask", @"import\s+flask", @"Flask\s*\(", @"@app\.route",
      @"render_template\s*\(", @"request\.form"
    ],
    ["Flask", "@app.route", "render_template"],
    1.2)

  /** `fastapi`: guess_lexer.py:380-392 */
  const FastApiFramework: FrameworkRules := FrameworkRules(
    "fastapi",
    "python",
    [
      @"from\s+fastapi", @"import\s+fastapi", @"FastAPI\s*\(",
      @"@app\.(get|post|put|delete)", "Pydantic", "BaseModel"
    ],
    ["FastAPI", "Pydantic", "BaseModel"],
    1.2)

  /** `express`: guess_lexer.py:393-405 */
  const ExpressFramework: FrameworkRules := FrameworkRules(
    "express",
    "javascript",
    [
      @"require\s*\([\'""]express[\'""]", @"import\s+.*from\s+[\'""]express[\'""]",
      @"app\.get\s*\(", @"app\.post\s*\(", @"app\.listen\s*\(", @"express\s*\(\s*\)"
    ],
    ["express", "app.get", "app.post", "app.listen"],
    1.2)

  /** `spring`: guess_lexer.py:406-419 */
  const SpringFramework: FrameworkRules := FrameworkRules(
    "spring",
    "java",
    [
      @"import\s+org\.springframework", "@RestController", "@Service", "@Repository",
      "@Autowired", "@RequestMapping", "@GetMapping"
    ],
    ["@RestController", "@Service", "@Autowired", "springframework"],
    1.2)

  /** `flutter`: guess_lexer.py:420-496 */
  const FlutterFramework: FrameworkRules := FrameworkRules(
    "flutter",
    "dart",
    [
      @"import\s+[\'""]package:flutter/",
      @"import\s+[\'""]package:flutter/material\.dart[\'""]",
      @"import\s+[\'""]package:flutter/cupertino\.dart[\'""]",
      @"import\s+[\'""]package:flutter/widgets\.dart[\'""]",
      @"class\s+\w+\s+extends\s+StatelessWidget", @"class\s+\w+\s+extends\s+StatefulWidget",
      @"class\s+\w+\s+extends\s+State<\w+>", @"Widget\s+build\s*\(",
      @"@override\s+Widget\s+build", @"MaterialApp\s*\(", @"CupertinoApp\s*\(",
      @"Scaffold\s*\(", @"AppBar\s*\(", @"Container\s*\(", @"Column\s*\(", @"Row\s*\(",
      @"Text\s*\(", @"RaisedButton\s*\(", @"ElevatedButton\s*\(", @"TextButton\s*\(",
      @"OutlinedButton\s*\(", @"FloatingActionButton\s*\(", @"ListView\s*\(",
      @"GridView\s*\(", @"Stack\s*\(", @"Positioned\s*\(", @"Padding\s*\(", @"Margin\s*\(",
      @"SizedBox\s*\(", @"Expanded\s*\(", @"Flexible\s*\(", @"Navigator\.\w+",
      @"setState\s*\(", @"initState\s*\(", @"dispose\s*\(", @"didChangeDependencies\s*\(",
      @"runApp\s*\(", @"MaterialPageRoute\s*\(", @"CupertinoPageRoute\s*\(", @"Theme\.\w+",
      @"MediaQuery\.\w+", @"ValueNotifier<\w+>", @"ValueListenableBuilder<\w+>",
      @"StreamBuilder<\w+>", @"FutureBuilder<\w+>", @"AnimationController\s*\(",
      "SingleTickerProviderStateMixin", "TickerProviderStateMixin",
      @"GestureDetector\s*\(", @"InkWell\s*\(", @"onTap:\s*\(", @"onPressed:\s*\(",
      @"CrossAxisAlignment\.\w+", @"MainAxisAlignment\.\w+", @"TextAlign\.\w+",
      @"FontWeight\.\w+", @"Colors\.\w+", @"Icons\.\w+", @"EdgeInsets\.\w+",
      @"BorderRadius\.\w+", @"Decoration\s*\(", @"BoxDecoration\s*\("
    ],
    [
      "Flutter", "StatelessWidget", "StatefulWidget", "Widget", "build", "MaterialApp",
      "CupertinoApp", "Scaffold", "AppBar", "Container", "Column", "Row", "Text",
      "ElevatedButton", "FloatingActionButton", "ListView", "GridView", "Stack",
      "Positioned", "Navigator", "setState", "initState", "dispose", "runApp",
      "Theme", "MediaQuery", "StreamBuilder", "FutureBuilder", "AnimationController",
      "GestureDetector", "CrossAxisAlignment", "MainAxisAlignment", "Colors", "Icons"
    ],
    1.3)

  /** The language table in its iteration order (guess_lexer.py:39-306). */
  const Languages: seq<LanguageRules> := [
    Python, JavaScript, TypeScript, Java, CSharp, Cpp, C, Go, Rust, Ruby, Php, Swift,
    Kotlin, Sql, Html, Css, Dart
  ]

  /** The framework table in its iteration order (guess_lexer.py:308-497). */
  const Frameworks: seq<FrameworkRules> := [
    ReactFramework, VueFramework, AngularFramework, DjangoFramework, FlaskFramework,
    FastApiFramework, ExpressFramework, SpringFramework, FlutterFramework
  ]

  /** The extension table in its iteration order (guess_lexer.py:499-519). */
  const Extensions: seq<ExtensionRule> := [
    ExtensionRule("python", [".py", ".pyw", ".pyx"]),
    ExtensionRule("javascript", [".js", ".mjs", ".cjs"]),
    ExtensionRule("typescript", [".ts", ".tsx"]),
    ExtensionRule("java", [".java"]),
    ExtensionRule("csharp", [".cs"]),
    ExtensionRule("cpp", [".cpp", ".cxx", ".cc", ".c++"]),
    ExtensionRule("c", [".c", ".h"]),
    ExtensionRule("go", [".go"]),
    ExtensionRule("rust", [".rs"]),
    ExtensionRule("ruby", [".rb"]),
    ExtensionRule("php", [".php"]),
    ExtensionRule("swift", [".swift"]),
    ExtensionRule("kotlin", [".kt", ".kts"]),
    ExtensionRule("sql", [".sql"]),
    ExtensionRule("html", [".html", ".htm"]),
    ExtensionRule("css", [".css"]),
    ExtensionRule("dart", [".dart"])
  ]

  /** The registry a `GuessLexer` builds in its constructor. */
  const Default: Registry := Registry(Languages, Frameworks, Extensions)

  /** The language names, in the order the table declares them. */
  const LanguageKeys: seq<string> := [
    "python", "javascript", "typescript", "java", "csharp", "cpp", "c", "go", "rust",
    "ruby", "php", "swift", "kotlin", "sql", "html", "css", "dart"]

  /** The framework names, in the order the table declares them. */
  const FrameworkKeys: seq<string> := [
    "react", "vue", "angular", "django", "flask", "fastapi", "express", "spring", "flutter"]

  /**
    `get_supported_languages` and `get_supported_frameworks` on the default
    registry: the dictionary keys, in declaration order.
   */
  lemma SupportedNames()
    ensures Default.LanguageNames() == LanguageKeys
    ensures Default.FrameworkNames() == FrameworkKeys
  {
  }

  lemma KeysUnique()
    ensures Unique(LanguageKeys)
    ensures Unique(FrameworkKeys)
  {
  }

  /** No language and no framework is registered twice. */
  lemma DefaultNamesUnique()
    ensures Unique(Default.LanguageNames())
    ensures Unique(Default.FrameworkNames())
  {
    SupportedNames();
    KeysUnique();
  }

  /** Every weight of the default tables is positive, and no language is called "unknown". */
  lemma DefaultWeightsPositive()
    ensures forall i :: 0 <= i < |Default.languages| ==> Default.languages[i].weight > 0.0 && Default.languages[i].name != Unknown
    ensures forall i :: 0 <= i < |Default.frameworks| ==> Default.frameworks[i].weight > 0.0
  {
  }

  /** Every framework belongs to a registered language. */
  lemma FrameworkOwnersRegistered()
    ensures forall i :: 0 <= i < |Default.frameworks| ==> Default.frameworks[i].language in LanguageKeys
  {
  }

  /** The extension table names the registered languages, in the same order. */
  lemma ExtensionOwnersRegistered()
    ensures |Extensions| == |LanguageKeys|
    ensures forall i :: 0 <= i < |Extensions| ==> Extensions[i].language == LanguageKeys[i]
  {
  }

  /** The default tables are self-consistent. */
  lemma DefaultWellFormed()
    ensures Default.WellFormed()
  {
    DefaultNamesUnique();
    DefaultWeightsPositive();
    FrameworkOwnersRegistered();
    SupportedNames();
  }
}
