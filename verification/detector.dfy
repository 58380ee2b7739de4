/**
 * The AI-likelihood analyzer: a context built once from the code, ten scoring modules that each
 * return a score under their own ceiling, and the weighted aggregation of their scores into an
 * integer likelihood with a size-based confidence.
 *
 * The Shannon entropy of a text is computed in floating point with `Math.log2`; it is a parameter
 * `entropy` of the analysis here, so every property below holds whatever that function returns.
 */
module Detector {
  import opened Text
  import opened Patterns
  import opened Bodies

  /** What the analyzer may be called with: a string, or any other JavaScript value. */
  datatype Input = StringInput(code: string) | OtherValue

  datatype ModuleResult = ModuleResult(score: nat, maxScore: nat, reasons: seq<string>)

  datatype AnalysisResult = AnalysisResult(
    likelihood: int,
    confidence: real,
    language: string,
    reasons: seq<string>,
    breakdown: map<string, ModuleResult>)

  /** The derived views of the code that every module reads. */
  datatype Context = Context(
    code: string,
    lines: seq<string>,
    nonEmptyLines: seq<string>,
    trimmedLines: seq<string>,
    tokens: seq<string>,
    language: string)

  /** Inputs whose trimmed length is below this are not analyzed. */
  const MinLength := 30

  /** The result for an input that is not a string or is too short: no module runs. */
  const Insufficient := AnalysisResult(0, 0.0, "unknown", ["Insufficient code"], map[])

  predicate IsDegenerate(input: Input) {
    match input
    case OtherValue => true
    case StringInput(code) => |Trim(code)| < MinLength
  }

  // ---------------------------------------------------------------- context

  /** `/\bdef\b|\b__name__\b|import\s+\w+/` */
  predicate PythonSignature(code: string) {
    HasWord(code, "def") || HasWord(code, "__name__") || exists i :: 0 <= i < |code| && ImportAt(code, i)
  }

  /** `/\bconst\b|\blet\b|=>|\bfunction\b/` */
  predicate JavaScriptSignature(code: string) {
    HasWord(code, "const") || HasWord(code, "let") || Contains(code, "=>") || HasWord(code, "function")
  }

  /** `/#include|std::|cout|cin/` */
  predicate CppSignature(code: string) {
    Contains(code, "#include") || Contains(code, "std::") || Contains(code, "cout") || Contains(code, "cin")
  }

  /** `/\bpublic\s+class\b|System\.out/` */
  predicate JavaSignature(code: string) {
    (exists i :: 0 <= i < |code| && PublicClassAt(code, i)) || Contains(code, "System.out")
  }

  /**
   * The detector's language sniffer: Python, JavaScript, C++ and Java signatures are tried in that
   * order and the first one found decides; "generic" when none is found.
   */
  function DetectLanguage(code: string): (tag: string)
    ensures tag in ["python", "javascript", "cpp", "java", "generic"]
    ensures tag == "python" <==> PythonSignature(code)
    ensures tag == "javascript" <==> !PythonSignature(code) && JavaScriptSignature(code)
    ensures tag == "cpp" <==> !PythonSignature(code) && !JavaScriptSignature(code) && CppSignature(code)
    ensures tag == "java" <==>
      !PythonSignature(code) && !JavaScriptSignature(code) && !CppSignature(code) && JavaSignature(code)
    ensures tag == "generic" <==>
      !PythonSignature(code) && !JavaScriptSignature(code) && !CppSignature(code) && !JavaSignature(code)
  {
    if PythonSignature(code) then "python"
    else if JavaScriptSignature(code) then "javascript"
    else if CppSignature(code) then "cpp"
    else if JavaSignature(code) then "java"
    else "generic"
  }

  /** A whole word needs its text somewhere. */
  lemma NoWordWithout(s: string, w: string)
    requires !Contains(s, w)
    ensures !HasWord(s, w)
  {
    forall i | 0 <= i < |s| ensures !WordAt(s, i, w) {
      NoMatchWithout(s, w, i);
    }
  }

  lemma UndefinedIsNotPython()
    ensures Contains("undefined", "def") && !PythonSignature("undefined")
  {
    var u := "undefined";
    ContainsAt(u, "def", 2);
    forall i | 0 <= i < |u| ensures !WordAt(u, i, "def") {
      if i == 2 { assert IsWordChar(u[1]); }
    }
    MissingFirstChar(u, "__name__");
    NoWordWithout(u, "__name__");
    assert !Contains(u, "import") by {
      forall i | 0 <= i <= |u| - 6 ensures !StartsAt(u, i, "import") {
        assert u[i] != 'i';
      }
    }
    forall i | 0 <= i < |u| ensures !ImportAt(u, i) {
      NoMatchWithout(u, "import", i);
    }
  }

  lemma UndefinedIsNotJavaScript()
    ensures !JavaScriptSignature("undefined")
  {
    var u := "undefined";
    MissingFirstChar(u, "const");
    NoWordWithout(u, "const");
    MissingFirstChar(u, "let");
    NoWordWithout(u, "let");
    MissingFirstChar(u, "=>");
    assert !Contains(u, "function") by {
      forall i | 0 <= i <= |u| - 8 ensures !StartsAt(u, i, "function") {
        assert u[i] != 'f';
      }
    }
    NoWordWithout(u, "function");
  }

  lemma UndefinedIsNotCppOrJava()
    ensures !CppSignature("undefined") && !JavaSignature("undefined")
  {
    var u := "undefined";
    MissingFirstChar(u, "#include");
    MissingFirstChar(u, "std::");
    MissingFirstChar(u, "cout");
    MissingFirstChar(u, "cin");
    MissingFirstChar(u, "System.out");
    MissingFirstChar(u, "public");
    forall i | 0 <= i < |u| ensures !PublicClassAt(u, i) {
      NoMatchWithout(u, "public", i);
    }
  }

  /** The Python signatures need whole words: `undefined` holds `def` only inside a word, and is "generic". */
  lemma SignaturesNeedWholeWords()
    ensures Contains("undefined", "def")
    ensures DetectLanguage("undefined") == "generic"
  {
    UndefinedIsNotPython();
    UndefinedIsNotJavaScript();
    UndefinedIsNotCppOrJava();
  }

  /** `l => l.trim()` as a filter: the line holds something besides white space. */
  predicate IsNonBlank(line: string) { Trim(line) != [] }

  function TrimAll(lines: seq<string>): (r: seq<string>)
    ensures |r| == |lines|
    ensures forall k :: 0 <= k < |lines| ==> r[k] == Trim(lines[k])
  {
    seq(|lines|, k requires 0 <= k < |lines| => Trim(lines[k]))
  }

  /** The context of `analyzeAICodeLikelihood`: the lines, the non-blank ones, the trimmed ones, the tokens and the language. */
  function BuildContext(code: string): (ctx: Context)
    ensures ctx.code == code && ctx.lines == Lines(code) && Join(ctx.lines) == code
    ensures |ctx.trimmedLines| == |ctx.lines|
    ensures forall k :: 0 <= k < |ctx.lines| ==> ctx.trimmedLines[k] == Trim(ctx.lines[k])
    ensures |ctx.nonEmptyLines| <= |ctx.lines|
    ensures forall l :: l in ctx.nonEmptyLines <==> l in ctx.lines && !IsBlank(l)
    ensures forall l :: multiset(ctx.nonEmptyLines)[l] == if IsBlank(l) then 0 else multiset(ctx.lines)[l]
    ensures ctx.tokens == Tokenize(code) && ctx.language == DetectLanguage(code)
  {
    JoinOfLines(code);
    var lines := Lines(code);
    Context(code, lines, Filter(lines, IsNonBlank), TrimAll(lines), Tokenize(code), DetectLanguage(code))
  }

  // ---------------------------------------------------------------- module results

  /** The module result before any of its checks: score 0 and no reasons. */
  function Empty(maxScore: nat): ModuleResult {
    ModuleResult(0, maxScore, [])
  }

  /** One `if (fired) { score += points; reasons.push(reason); }` of a module. */
  function Fire(r: ModuleResult, fired: bool, points: nat, reason: string): (r': ModuleResult)
    ensures r'.maxScore == r.maxScore
    ensures r'.score == r.score + (if fired then points else 0)
    ensures r'.reasons == r.reasons + (if fired then [reason] else [])
  {
    if fired then ModuleResult(r.score + points, r.maxScore, r.reasons + [reason]) else r
  }

  /** A module result is well formed: under its (positive) ceiling, with a reason exactly when it scores. */
  predicate WithinCeiling(r: ModuleResult) {
    0 < r.maxScore && r.score <= r.maxScore && (r.score == 0 <==> r.reasons == [])
  }

  /**
   * `a / b > bound` on JavaScript numbers for counts `a` and `b`: `0 / 0` is NaN and compares false,
   * a positive count over 0 is Infinity and compares true.
   */
  predicate RatioAbove(a: nat, b: nat, bound: real) {
    if b == 0 then a > 0 else a as real / b as real > bound
  }

  // ---------------------------------------------------------------- the ten modules

  predicate IsCommentLine(line: string) { StartsWith(line, "//") || StartsWith(line, "#") }

  /** One of the explanatory phrases, matched case-insensitively. */
  predicate HasAIPhrase(line: string) {
    var l := Lower(line);
    Contains(l, "this function") || Contains(l, "returns the") || Contains(l, "responsible for") ||
    Contains(l, "used to") || Contains(l, "handles the") || Contains(l, "here's how") ||
    Contains(l, "heres how") || Contains(l, "for example")
  }

  /** `analyzeComments`: explanatory comment lines (+10) and comment density (+5), at most 15. */
  function AnalyzeComments(ctx: Context): (r: ModuleResult)
    ensures r.maxScore == 15 && WithinCeiling(r)
    ensures (forall k :: 0 <= k < |ctx.trimmedLines| ==> !IsCommentLine(ctx.trimmedLines[k])) ==> r.score == 0
  {
    var comments := Filter(ctx.trimmedLines, IsCommentLine);
    var matches := |Filter(comments, HasAIPhrase)|;
    var r := Fire(Empty(15), |comments| > 0 && RatioAbove(matches, |comments|, 0.4), 10, "AI-style explanatory comments");
    Fire(r, RatioAbove(|comments|, |ctx.nonEmptyLines|, 0.3), 5, "High comment density")
  }

  predicate IsGenericName(name: string) {
    var l := Lower(name);
    Contains(l, "data") || Contains(l, "result") || Contains(l, "value") || Contains(l, "item") || Contains(l, "count")
  }

  /** The distinct identifier tokens of at least three characters. */
  function UniqueIdentifiers(tokens: seq<string>): set<string> {
    set t | t in tokens && IsIdentifier(t)
  }

  /** `analyzeNaming`: long names (+5) and generic names (+4) among the distinct identifiers, at most 12. */
  function AnalyzeNaming(ctx: Context): (r: ModuleResult)
    ensures r.maxScore == 12 && WithinCeiling(r)
    ensures UniqueIdentifiers(ctx.tokens) == {} ==> r.score == 0
  {
    var unique := UniqueIdentifiers(ctx.tokens);
    var long := set n | n in unique && |n| >= 15;
    var generic := set n | n in unique && IsGenericName(n);
    var r := Fire(Empty(12), RatioAbove(|long|, |unique|, 0.2), 5, "Overly descriptive identifiers");
    Fire(r, RatioAbove(|generic|, |unique|, 0.4), 4, "Generic variable naming")
  }

  /** The line count of every extracted function body. */
  function BodyLengths(bodies: seq<string>): (lens: seq<int>)
    ensures |lens| == |bodies|
  {
    seq(|bodies|, k requires 0 <= k < |bodies| => |Lines(bodies[k])|)
  }

  /** `analyzeStructure`: many functions in a short file (+6) and uniform body sizes (+4), at most 14. */
  function AnalyzeStructure(ctx: Context): (r: ModuleResult)
    ensures r.maxScore == 14 && WithinCeiling(r)
    ensures |FunctionBodies(ctx.code)| < 3 && CountFrom(ctx.code, 0, FunctionOrDefLen) < 3 ==> r.score == 0
  {
    var funcs := CountFrom(ctx.code, 0, FunctionOrDefLen);
    var bodies := FunctionBodies(ctx.code);
    var r := Fire(Empty(14), funcs >= 3 && |ctx.nonEmptyLines| < 150, 6, "Prompt-like full solution structure");
    Fire(r, |bodies| >= 3 && CvBelowQuarter(GetStatistics(BodyLengths(bodies))), 4, "Uniform function sizes")
  }

  /** `analyzeCompleteness`: three or more `typeof`/`instanceof`/`=== null` checks (+6), at most 12. */
  function AnalyzeCompleteness(ctx: Context): (r: ModuleResult)
    ensures r.maxScore == 12 && WithinCeiling(r)
    ensures r.score > 0 <==> CountFrom(ctx.code, 0, CheckLen) >= 3
  {
    Fire(Empty(12), CountFrom(ctx.code, 0, CheckLen) >= 3, 6, "Excessive defensive validation")
  }

  /** `analyzeErrorHandling`: two or more `try {` blocks (+6), at most 10. */
  function AnalyzeErrorHandling(ctx: Context): (r: ModuleResult)
    ensures r.maxScore == 10 && WithinCeiling(r)
    ensures r.score > 0 <==> CountFrom(ctx.code, 0, TryBlockLen) >= 2
  {
    Fire(Empty(10), CountFrom(ctx.code, 0, TryBlockLen) >= 2, 6, "Over-engineered error handling")
  }

  predicate HasMarkdown(code: string) {
    Contains(code, "```") || exists i :: 0 <= i < |code| && HeadingAt(code, i)
  }

  predicate HasTutorialPhrasing(code: string) {
    var l := Lower(code);
    (exists i :: 0 <= i < |l| && StepAt(l, i)) || Contains(l, "example:")
  }

  /** `detectAIArtifacts`: markdown fences or headings (+10) and tutorial phrasing (+6), at most 18. */
  function DetectAIArtifacts(ctx: Context): (r: ModuleResult)
    ensures r.maxScore == 18 && WithinCeiling(r)
    ensures HasMarkdown(ctx.code) ==> r.score >= 10
  {
    var r := Fire(Empty(18), HasMarkdown(ctx.code), 10, "Markdown artifacts");
    Fire(r, HasTutorialPhrasing(ctx.code), 6, "Tutorial-style phrasing")
  }

  /** `analyzeEntropy`: low entropy of the space-collapsed text in a text over 200 characters (+6), at most 8. */
  function AnalyzeEntropy(ctx: Context, entropy: string -> real): (r: ModuleResult)
    ensures r.maxScore == 8 && WithinCeiling(r)
    ensures |ctx.code| <= 200 ==> r.score == 0
  {
    Fire(Empty(8), entropy(CollapseSpaces(ctx.code)) < 4.1 && |ctx.code| > 200, 6, "Low entropy pattern")
  }

  predicate HasIdioms(code: string) {
    Contains(code, ".map(") || Contains(code, ".filter(") || Contains(code, "Promise.all")
  }

  /** `analyzeIdioms`: `.map(`, `.filter(` or `Promise.all` (+6), at most 10. */
  function AnalyzeIdioms(ctx: Context): (r: ModuleResult)
    ensures r.maxScore == 10 && WithinCeiling(r)
    ensures r.score > 0 <==> HasIdioms(ctx.code)
  {
    Fire(Empty(10), HasIdioms(ctx.code), 6, "Textbook idiomatic usage")
  }

  predicate HasDebugArtifacts(code: string) {
    Contains(code, "console.log") || Contains(code, "debugger") || Contains(code, "TODO") || Contains(code, "FIXME")
  }

  /** `analyzeDebugAbsence`: none of `console.log`, `debugger`, `TODO`, `FIXME` (+8), at most 11. */
  function AnalyzeDebugAbsence(ctx: Context): (r: ModuleResult)
    ensures r.maxScore == 11 && WithinCeiling(r)
    ensures r.score == 0 <==> HasDebugArtifacts(ctx.code)
  {
    Fire(Empty(11), !HasDebugArtifacts(ctx.code), 8, "No debug artifacts")
  }

  /** `analyzeStatisticalPatterns`: more than ten space-padded operators (+4), at most 10. */
  function AnalyzeStatisticalPatterns(ctx: Context): (r: ModuleResult)
    ensures r.maxScore == 10 && WithinCeiling(r)
    ensures r.score > 0 <==> CountFrom(ctx.code, 0, SpacedOperatorLen) > 10
  {
    Fire(Empty(10), CountFrom(ctx.code, 0, SpacedOperatorLen) > 10, 4, "Perfect operator spacing")
  }

  // ---------------------------------------------------------------- the module table

  datatype ModuleId =
    | CommentModule | NamingModule | StructureModule | CompletenessModule | ErrorHandlingModule
    | ArtifactModule | EntropyModule | IdiomModule | DebugModule | SpacingModule

  /** The modules in the order they run. */
  const Pipeline: seq<ModuleId> := [
    CommentModule, NamingModule, StructureModule, CompletenessModule, ErrorHandlingModule,
    ArtifactModule, EntropyModule, IdiomModule, DebugModule, SpacingModule]

  function Weight(m: ModuleId): (w: real)
    ensures w > 0.0
  {
    match m
    case CommentModule => 1.2
    case NamingModule => 1.0
    case StructureModule => 1.3
    case CompletenessModule => 1.1
    case ErrorHandlingModule => 0.9
    case ArtifactModule => 1.5
    case EntropyModule => 1.0
    case IdiomModule => 0.8
    case DebugModule => 1.2
    case SpacingModule => 1.0
  }

  /** The breakdown key of a module: the name of its function. */
  function Name(m: ModuleId): string {
    match m
    case CommentModule => "analyzeComments"
    case NamingModule => "analyzeNaming"
    case StructureModule => "analyzeStructure"
    case CompletenessModule => "analyzeCompleteness"
    case ErrorHandlingModule => "analyzeErrorHandling"
    case ArtifactModule => "detectAIArtifacts"
    case EntropyModule => "analyzeEntropy"
    case IdiomModule => "analyzeIdioms"
    case DebugModule => "analyzeDebugAbsence"
    case SpacingModule => "analyzeStatisticalPatterns"
  }

  function Run(m: ModuleId, ctx: Context, entropy: string -> real): (r: ModuleResult)
    ensures WithinCeiling(r)
  {
    match m
    case CommentModule => AnalyzeComments(ctx)
    case NamingModule => AnalyzeNaming(ctx)
    case StructureModule => AnalyzeStructure(ctx)
    case CompletenessModule => AnalyzeCompleteness(ctx)
    case ErrorHandlingModule => AnalyzeErrorHandling(ctx)
    case ArtifactModule => DetectAIArtifacts(ctx)
    case EntropyModule => AnalyzeEntropy(ctx, entropy)
    case IdiomModule => AnalyzeIdioms(ctx)
    case DebugModule => AnalyzeDebugAbsence(ctx)
    case SpacingModule => AnalyzeStatisticalPatterns(ctx)
  }

  // ---------------------------------------------------------------- aggregation

  /** Each module's result on one context: what `fn(ctx)` returns in the loop. */
  function Results(ctx: Context, entropy: string -> real): ModuleId -> ModuleResult {
    m => Run(m, ctx, entropy)
  }

  ghost predicate AllWithinCeiling(results: ModuleId -> ModuleResult) {
    forall m :: WithinCeiling(results(m))
  }

  lemma ResultsWithinCeiling(ctx: Context, entropy: string -> real)
    ensures AllWithinCeiling(Results(ctx, entropy))
  {
    forall m ensures WithinCeiling(Results(ctx, entropy)(m)) {
      assert Results(ctx, entropy)(m) == Run(m, ctx, entropy);
    }
  }

  /** `(res.score / res.maxScore) * weight` */
  function Share(r: ModuleResult, w: real): real
    requires r.maxScore > 0
  {
    r.score as real / r.maxScore as real * w
  }

  /** The accumulated `weightedScore` after running the modules `ms`. */
  function WeightedSum(ms: seq<ModuleId>, results: ModuleId -> ModuleResult): real
    requires AllWithinCeiling(results)
  {
    if ms == [] then 0.0
    else
      var m := ms[|ms| - 1];
      WeightedSum(ms[..|ms| - 1], results) + Share(results(m), Weight(m))
  }

  /** The accumulated `totalWeight`. */
  function TotalWeight(ms: seq<ModuleId>): real {
    if ms == [] then 0.0 else TotalWeight(ms[..|ms| - 1]) + Weight(ms[|ms| - 1])
  }

  /** The accumulated `reasons`, module by module, duplicates included. */
  function CollectedReasons(ms: seq<ModuleId>, results: ModuleId -> ModuleResult): seq<string> {
    if ms == [] then []
    else CollectedReasons(ms[..|ms| - 1], results) + results(ms[|ms| - 1]).reasons
  }

  /** The accumulated `breakdown`, keyed by module name. */
  function Breakdown(ms: seq<ModuleId>, results: ModuleId -> ModuleResult): map<string, ModuleResult> {
    if ms == [] then map[]
    else
      var m := ms[|ms| - 1];
      Breakdown(ms[..|ms| - 1], results)[Name(m) := results(m)]
  }

  /** Extending a run of modules by one module extends each accumulator by that module's contribution. */
  lemma PrefixStep(ms: seq<ModuleId>, k: nat, results: ModuleId -> ModuleResult)
    requires k < |ms| && AllWithinCeiling(results)
    ensures WeightedSum(ms[..k + 1], results) == WeightedSum(ms[..k], results) + Share(results(ms[k]), Weight(ms[k]))
    ensures TotalWeight(ms[..k + 1]) == TotalWeight(ms[..k]) + Weight(ms[k])
    ensures Breakdown(ms[..k + 1], results) == Breakdown(ms[..k], results)[Name(ms[k]) := results(ms[k])]
    ensures CollectedReasons(ms[..k + 1], results) == CollectedReasons(ms[..k], results) + results(ms[k]).reasons
  {
    assert ms[..k + 1][..k] == ms[..k];
  }

  /** `Math.round`: the nearest integer, halves rounding up. */
  function Round(x: real): (n: int)
    ensures n as real - 0.5 <= x < n as real + 0.5
  {
    (x + 0.5).Floor
  }

  /** `Math.min(Math.round((weighted / total) * 100), 100)`: the nearest whole percentage, capped at 100. */
  function Likelihood(weighted: real, total: real): (l: int)
    requires total > 0.0
    ensures l <= 100
    ensures l < 100 ==> l as real - 0.5 <= weighted / total * 100.0 < l as real + 0.5
    ensures l == 100 ==> weighted / total * 100.0 >= 99.5
  {
    var r := Round(weighted / total * 100.0);
    if r < 100 then r else 100
  }

  /** `Math.min(50 + nonEmptyLines * 0.5, 95)` */
  function Confidence(nonEmptyLines: nat): (c: real)
    ensures 50.0 <= c <= 95.0
    ensures c == 95.0 <==> nonEmptyLines >= 90
  {
    var c := 50.0 + nonEmptyLines as real * 0.5;
    if c < 95.0 then c else 95.0
  }

  /** `[...new Set(s)]`: the first occurrence of every element, in order. */
  function Dedup(s: seq<string>): (r: seq<string>)
    ensures forall x :: x in r <==> x in s
    ensures forall i, j :: 0 <= i < j < |r| ==> r[i] != r[j]
    ensures |r| <= |s|
  {
    if s == [] then []
    else
      var d := Dedup(s[..|s| - 1]);
      var x := s[|s| - 1];
      assert forall y :: y in s <==> y in s[..|s| - 1] || y == x by {
        assert s == s[..|s| - 1] + [x];
      }
      if x in d then d else d + [x]
  }

  /**
   * The result of analyzing a context: the weighted average of the module scores as an integer
   * percentage in [0, 100], the confidence `min(50 + 0.5·lines, 95)`, the language tag, the reasons
   * without repetitions and the breakdown by module name.
   */
  function Analyze(ctx: Context, entropy: string -> real): (res: AnalysisResult)
    ensures 0 <= res.likelihood <= 100
    ensures res.confidence == Confidence(|ctx.nonEmptyLines|) && 50.0 <= res.confidence <= 95.0
    ensures res.language == ctx.language
    ensures forall x :: x in res.reasons <==> x in CollectedReasons(Pipeline, Results(ctx, entropy))
  {
    var results := Results(ctx, entropy);
    ResultsWithinCeiling(ctx, entropy);
    TotalWeightOfPipeline();
    WeightedSumBounds(Pipeline, results);
    LikelihoodRange(WeightedSum(Pipeline, results), TotalWeight(Pipeline));
    AnalysisResult(
      Likelihood(WeightedSum(Pipeline, results), TotalWeight(Pipeline)),
      Confidence(|ctx.nonEmptyLines|),
      ctx.language,
      Dedup(CollectedReasons(Pipeline, results)),
      Breakdown(Pipeline, results))
  }

  /**
   * `analyzeAICodeLikelihood` as a function of its input: a value that is not a string, or a string
   * whose trimmed length is under 30, gets the fixed "Insufficient code" result and no module runs.
   */
  function AnalysisOf(input: Input, entropy: string -> real): (res: AnalysisResult)
    ensures IsDegenerate(input) ==> res == Insufficient
    ensures 0 <= res.likelihood <= 100
  {
    if IsDegenerate(input) then Insufficient else Analyze(BuildContext(input.code), entropy)
  }

  // ---------------------------------------------------------------- properties of the aggregation

  /** The weights sum to 11 (12 + 10 + 13 + 11 + 9 + 15 + 10 + 8 + 12 + 10 tenths). */
  lemma TotalWeightOfPipeline()
    ensures TotalWeight(Pipeline) == 11.0
  {
    assert Pipeline[..10] == Pipeline;
    var p := Pipeline;
    assert p[..9][..8] == p[..8] && p[..8][..7] == p[..7] && p[..7][..6] == p[..6];
    assert p[..6][..5] == p[..5] && p[..5][..4] == p[..4] && p[..4][..3] == p[..3];
    assert p[..3][..2] == p[..2] && p[..2][..1] == p[..1] && p[..1][..0] == [];
    assert TotalWeight(p[..1]) == 1.2;
    assert TotalWeight(p[..2]) == 2.2;
    assert TotalWeight(p[..3]) == 3.5;
    assert TotalWeight(p[..4]) == 4.6;
    assert TotalWeight(p[..5]) == 5.5;
    assert TotalWeight(p[..6]) == 7.0;
    assert TotalWeight(p[..7]) == 8.0;
    assert TotalWeight(p[..8]) == 8.8;
    assert TotalWeight(p[..9]) == 10.0;
  }

  /** A module's weighted share lies between 0 and its weight, because its score is under its ceiling. */
  lemma ShareBounds(r: ModuleResult, w: real)
    requires WithinCeiling(r) && w >= 0.0
    ensures 0.0 <= Share(r, w) <= w
  {
    var q := r.score as real / r.maxScore as real;
    assert 0.0 <= q <= 1.0 by {
      assert q * r.maxScore as real == r.score as real;
    }
    FractionOfWeight(q, w);
  }

  lemma FractionOfWeight(q: real, w: real)
    requires 0.0 <= q <= 1.0 && w >= 0.0
    ensures 0.0 <= q * w <= w
  {
    assert q * w <= 1.0 * w;
  }

  /** The weighted sum of any run of modules lies between 0 and their total weight. */
  lemma {:induction false} WeightedSumBounds(ms: seq<ModuleId>, results: ModuleId -> ModuleResult)
    requires AllWithinCeiling(results)
    ensures 0.0 <= WeightedSum(ms, results) <= TotalWeight(ms)
    decreases |ms|
  {
    if ms != [] {
      var m := ms[|ms| - 1];
      WeightedSumBounds(ms[..|ms| - 1], results);
      ShareBounds(results(m), Weight(m));
    }
  }

  /** A normalised score in [0, 1] scales, rounds and clamps to an integer in [0, 100]. */
  lemma LikelihoodRange(weighted: real, total: real)
    requires total > 0.0 && 0.0 <= weighted <= total
    ensures 0 <= Likelihood(weighted, total) <= 100
  {
    var q := weighted / total;
    assert 0.0 <= q <= 1.0 by {
      assert q * total == weighted;
    }
    FractionOfWeight(q, 100.0);
    assert 0.0 <= q * 100.0 <= 100.0;
  }

  /** Different modules are recorded under different names. */
  lemma NameInjective(a: ModuleId, b: ModuleId)
    requires a != b
    ensures Name(a) != Name(b)
  {
  }

  /** Running a list of modules that contains `m` records `m`'s own result under its name. */
  lemma {:induction false} BreakdownHolds(ms: seq<ModuleId>, results: ModuleId -> ModuleResult, m: ModuleId)
    requires m in ms
    ensures Name(m) in Breakdown(ms, results)
    ensures Breakdown(ms, results)[Name(m)] == results(m)
    decreases |ms|
  {
    var last := ms[|ms| - 1];
    if m != last {
      assert ms == ms[..|ms| - 1] + [last];
      BreakdownHolds(ms[..|ms| - 1], results, m);
      NameInjective(m, last);
    }
  }

  /** Every entry of the breakdown of any list of modules is under its ceiling. */
  lemma {:induction false} BreakdownWithinCeiling(ms: seq<ModuleId>, results: ModuleId -> ModuleResult)
    requires AllWithinCeiling(results)
    ensures forall key :: key in Breakdown(ms, results) ==> WithinCeiling(Breakdown(ms, results)[key])
    decreases |ms|
  {
    if ms != [] {
      BreakdownWithinCeiling(ms[..|ms| - 1], results);
    }
  }

  /** Every module is in the table. */
  lemma AllModulesRun(m: ModuleId)
    ensures m in Pipeline
  {
  }

  /**
   * The breakdown of an analyzed input holds, under each module's name, that module's result on the
   * input's context; every entry is under its ceiling.
   */
  lemma BreakdownEntry(ctx: Context, entropy: string -> real, m: ModuleId)
    ensures Name(m) in Analyze(ctx, entropy).breakdown
    ensures Analyze(ctx, entropy).breakdown[Name(m)] == Run(m, ctx, entropy)
    ensures forall key :: key in Analyze(ctx, entropy).breakdown ==> WithinCeiling(Analyze(ctx, entropy).breakdown[key])
  {
    var results := Results(ctx, entropy);
    AllModulesRun(m);
    BreakdownHolds(Pipeline, results, m);
    ResultsWithinCeiling(ctx, entropy);
    BreakdownWithinCeiling(Pipeline, results);
    assert results(m) == Run(m, ctx, entropy);
  }

  /** Code with a debug artifact gets nothing from `analyzeDebugAbsence` in its breakdown. */
  lemma DebugArtifactsScoreNothing(ctx: Context, entropy: string -> real)
    requires HasDebugArtifacts(ctx.code)
    ensures Name(DebugModule) in Analyze(ctx, entropy).breakdown
    ensures Analyze(ctx, entropy).breakdown[Name(DebugModule)].score == 0
  {
    BreakdownEntry(ctx, entropy, DebugModule);
  }

  /** The loop of `analyzeAICodeLikelihood`: one pass over the module table, accumulating in place. */
  method RunModules(ctx: Context, entropy: string -> real)
    returns (weightedScore: real, totalWeight: real, breakdown: map<string, ModuleResult>, reasons: seq<string>)
    ensures AllWithinCeiling(Results(ctx, entropy))
    ensures weightedScore == WeightedSum(Pipeline, Results(ctx, entropy))
    ensures totalWeight == TotalWeight(Pipeline)
    ensures breakdown == Breakdown(Pipeline, Results(ctx, entropy))
    ensures reasons == CollectedReasons(Pipeline, Results(ctx, entropy))
  {
    var results := Results(ctx, entropy);
    ResultsWithinCeiling(ctx, entropy);
    weightedScore, totalWeight, breakdown, reasons := 0.0, 0.0, map[], [];
    for k := 0 to |Pipeline|
      invariant weightedScore == WeightedSum(Pipeline[..k], results)
      invariant totalWeight == TotalWeight(Pipeline[..k])
      invariant breakdown == Breakdown(Pipeline[..k], results)
      invariant reasons == CollectedReasons(Pipeline[..k], results)
    {
      var m := Pipeline[k];
      var r := results(m);
      breakdown := breakdown[Name(m) := r];
      weightedScore := weightedScore + Share(r, Weight(m));
      totalWeight := totalWeight + Weight(m);
      reasons := reasons + r.reasons;
      PrefixStep(Pipeline, k, results);
    }
    assert Pipeline[..|Pipeline|] == Pipeline;
  }

  /**
   * `analyzeAICodeLikelihood`: the short-circuit for degenerate input, then the module loop, the
   * rounded and capped likelihood, the confidence and the reasons without repetitions.
   */
  method AnalyzeAICodeLikelihood(input: Input, entropy: string -> real) returns (res: AnalysisResult)
    ensures res == AnalysisOf(input, entropy)
    ensures 0 <= res.likelihood <= 100
    ensures IsDegenerate(input) ==> res == Insufficient
    ensures !IsDegenerate(input) ==> 50.0 <= res.confidence <= 95.0
  {
    if IsDegenerate(input) {
      res := Insufficient;
      return;
    }
    var ctx := BuildContext(input.code);
    var weightedScore, totalWeight, breakdown, reasons := RunModules(ctx, entropy);
    TotalWeightOfPipeline();
    var likelihood := Likelihood(weightedScore, totalWeight);
    res := AnalysisResult(likelihood, Confidence(|ctx.nonEmptyLines|), ctx.language, Dedup(reasons), breakdown);
    assert res == Analyze(ctx, entropy);
  }

  // ---------------------------------------------------------------- conclusion

  /** `concludeAIDetection`: five labels, each threshold belonging to the higher label. */
  function ConcludeAIDetection(res: AnalysisResult): (verdict: string)
    ensures verdict in ["Very High AI likelihood", "High AI likelihood", "Moderate AI likelihood",
                      "Low AI likelihood", "Minimal AI indicators"]
    ensures verdict == "Very High AI likelihood" <==> res.likelihood >= 80
    ensures verdict == "High AI likelihood" <==> 60 <= res.likelihood < 80
    ensures verdict == "Moderate AI likelihood" <==> 40 <= res.likelihood < 60
    ensures verdict == "Low AI likelihood" <==> 20 <= res.likelihood < 40
    ensures verdict == "Minimal AI indicators" <==> res.likelihood < 20
  {
    if res.likelihood >= 80 then "Very High AI likelihood"
    else if res.likelihood >= 60 then "High AI likelihood"
    else if res.likelihood >= 40 then "Moderate AI likelihood"
    else if res.likelihood >= 20 then "Low AI likelihood"
    else "Minimal AI indicators"
  }
}
