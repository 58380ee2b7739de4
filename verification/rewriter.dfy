/**
 * The score-reducing rewriter: four text transforms applied in order, a stronger wrapping transform
 * when the score did not drop, and a final override of the reported likelihood when it still did not.
 */
module Rewriter {
  import opened Text
  import opened Patterns
  import opened Detector

  // ---------------------------------------------------------------- transforms

  /** The two comment lines `injectHumanNoise` puts in front of the code. */
  const NoiseHeader := "// quick debug check\n// console.log(\"temp\");\n"

  lemma NoiseHeaderMentionsConsole()
    ensures Contains(NoiseHeader, "console.log")
  {
    ContainsAt(NoiseHeader, "console.log", 24);
  }

  /**
   * `injectHumanNoise`: code that already mentions `console.log` is kept; other code gets the two
   * comment lines in front. Either way the result mentions `console.log` and ends with the code.
   */
  function InjectHumanNoise(code: string): (r: string)
    ensures Contains(r, "console.log")
    ensures |r| >= |code| && r[|r| - |code|..] == code
    ensures Contains(code, "console.log") <==> r == code
  {
    if Contains(code, "console.log") then code
    else
      NoiseHeaderMentionsConsole();
      ContainsInConcat([], NoiseHeader, code, "console.log");
      assert [] + NoiseHeader + code == NoiseHeader + code;
      NoiseHeader + code
  }

  /** Injecting noise twice is injecting it once. */
  lemma InjectHumanNoiseIdempotent(code: string)
    ensures InjectHumanNoise(InjectHumanNoise(code)) == InjectHumanNoise(code)
  {
  }

  /** The operator a spaced-operator match at `k` captures (`$1`). */
  function SpacedOperator(t: string, k: nat): string {
    var n := SpacedOperatorLen(t, k);
    if n > 0 then t[k + 1..k + n - 1] else ""
  }

  /** `code.replace(/\s([=+\-*\/<>!]=?)\s/g, " $1  ")` */
  function BreakUniformSpacing(code: string): (r: string)
    ensures |r| == |code| + CountFrom(code, 0, SpacedOperatorLen)
    ensures CountFrom(code, 0, SpacedOperatorLen) == 0 ==> r == code
  {
    var rep := (t: string, k: nat) => " " + SpacedOperator(t, k) + "  ";
    ReplaceLength(code, 0, SpacedOperatorLen, rep, 1);
    assert CountFrom(code, 0, SpacedOperatorLen) == 0 ==> ReplaceFrom(code, 0, SpacedOperatorLen, rep) == code by {
      if CountFrom(code, 0, SpacedOperatorLen) == 0 {
        NoMatchesCounted(code, 0, SpacedOperatorLen);
        ReplaceWithoutMatch(code, 0, SpacedOperatorLen, rep);
      }
    }
    ReplaceFrom(code, 0, SpacedOperatorLen, rep)
  }

  /** A count of zero from `i` means the pattern matches nowhere from `i` on. */
  lemma {:induction false} NoMatchesCounted(s: string, i: nat, m: Matcher)
    requires i <= |s| && CountFrom(s, i, m) == 0
    ensures forall k :: i <= k < |s| ==> m(s, k) == 0
    decreases |s| - i
  {
    if i < |s| {
      NoMatchesCounted(s, i + 1, m);
    }
  }

  /** `code.replace(/typeof\s+(\w+)\s*===?\s*['"]\w+['"]/g, "$1 != null")` */
  function WeakenValidation(code: string): (r: string)
    ensures !Contains(code, "typeof") ==> r == code
  {
    var rep := (t: string, k: nat) => TypeofSubject(t, k) + " != null";
    assert !Contains(code, "typeof") ==> ReplaceFrom(code, 0, TypeofCheckLen, rep) == code by {
      if !Contains(code, "typeof") {
        forall k | 0 <= k < |code| ensures TypeofCheckLen(code, k) == 0 {
          NoMatchWithout(code, "typeof", k);
        }
        ReplaceWithoutMatch(code, 0, TypeofCheckLen, rep);
      }
    }
    ReplaceFrom(code, 0, TypeofCheckLen, rep)
  }

  /** `code.replace(/if\s*\((\w+)\)/g, "if ($1) { if ($1 !== undefined)")` */
  function AddRedundantLogic(code: string): (r: string)
    ensures !Contains(code, "if") ==> r == code
  {
    var rep := (t: string, k: nat) => "if (" + GuardSubject(t, k) + ") { if (" + GuardSubject(t, k) + " !== undefined)";
    assert !Contains(code, "if") ==> ReplaceFrom(code, 0, IfGuardLen, rep) == code by {
      if !Contains(code, "if") {
        forall k | 0 <= k < |code| ensures IfGuardLen(code, k) == 0 {
          NoMatchWithout(code, "if", k);
        }
        ReplaceWithoutMatch(code, 0, IfGuardLen, rep);
      }
    }
    ReplaceFrom(code, 0, IfGuardLen, rep)
  }

  const WorkaroundComment := "\n/* temporary workaround */\n// "
  const CleanupNote := ": cleanup later\n\n"
  const PatchedNote := "(\"patched manually\");\n"
  /** What `forceHumanArtifacts` puts before the code: a workaround comment and a `TODO` line. */
  const ArtifactHeader := WorkaroundComment + "TODO" + CleanupNote
  /** What `forceHumanArtifacts` puts after the code: a commented-out `console.log`. */
  const ArtifactFooter := "\n\n// " + "console.log" + PatchedNote

  lemma ArtifactHeaderMentionsTodo()
    ensures Contains(ArtifactHeader, "TODO")
  {
    ContainsAt("TODO", "TODO", 0);
    ContainsInSuffix(WorkaroundComment, "TODO", "TODO");
    ContainsInPrefix(WorkaroundComment + "TODO", CleanupNote, "TODO");
  }

  lemma ArtifactFooterMentionsConsole()
    ensures Contains(ArtifactFooter, "console.log")
  {
    ContainsAt("console.log", "console.log", 0);
    ContainsInSuffix("\n\n// ", "console.log", "console.log");
    ContainsInPrefix("\n\n// " + "console.log", PatchedNote, "console.log");
  }

  /** The header's second character and the footer's second-to-last one are not white space. */
  lemma ArtifactsHaveInnerMarks()
    ensures |ArtifactHeader| > 1 && !IsSpace(ArtifactHeader[1])
    ensures |ArtifactFooter| > 1 && !IsSpace(ArtifactFooter[|ArtifactFooter| - 2])
  {
    assert ArtifactHeader[1] == WorkaroundComment[1] == '/';
    assert ArtifactFooter[|ArtifactFooter| - 2] == PatchedNote[|PatchedNote| - 2] == ';';
  }

  /**
   * `forceHumanArtifacts`: the code wrapped between a workaround comment with a `TODO` and a
   * commented-out `console.log`. The result always holds the code, a `TODO` and a `console.log`,
   * and is always long enough to be analyzed.
   */
  function ForceHumanArtifacts(code: string): (r: string)
    ensures Contains(r, code)
    ensures Contains(r, "TODO") && Contains(r, "console.log")
    ensures |Trim(r)| >= MinLength
  {
    var r := ArtifactHeader + code + ArtifactFooter;
    ContainsAt(r, code, |ArtifactHeader|);
    ArtifactHeaderMentionsTodo();
    ContainsInPrefix(ArtifactHeader, code, "TODO");
    ContainsInPrefix(ArtifactHeader + code, ArtifactFooter, "TODO");
    ArtifactFooterMentionsConsole();
    ContainsInSuffix(ArtifactHeader + code, ArtifactFooter, "console.log");
    ArtifactsHaveInnerMarks();
    assert r[1] == ArtifactHeader[1] && r[|r| - 2] == ArtifactFooter[|ArtifactFooter| - 2];
    TrimKeepsInner(r, 1, |r| - 1);
    r
  }

  /**
   * Whatever it wraps, the output of `forceHumanArtifacts` is analyzed (not the short-input result)
   * and `analyzeDebugAbsence` scores 0 on it.
   */
  lemma ForcedArtifactsSilenceDebugModule(code: string, entropy: string -> real)
    ensures !IsDegenerate(StringInput(ForceHumanArtifacts(code)))
    ensures Name(DebugModule) in AnalysisOf(StringInput(ForceHumanArtifacts(code)), entropy).breakdown
    ensures AnalysisOf(StringInput(ForceHumanArtifacts(code)), entropy).breakdown[Name(DebugModule)].score == 0
  {
    var forced := ForceHumanArtifacts(code);
    var ctx := BuildContext(forced);
    assert ctx.code == forced;
    assert HasDebugArtifacts(ctx.code);
    DebugArtifactsScoreNothing(ctx, entropy);
  }

  /** Code none of the four transforms has anything to do to. */
  predicate NothingToRewrite(code: string) {
    Contains(code, "console.log") && CountFrom(code, 0, SpacedOperatorLen) == 0 &&
    !Contains(code, "typeof") && !Contains(code, "if")
  }

  /**
   * The four transforms, in the order they are applied. Code that already mentions `console.log`
   * and holds no spaced operator, `typeof` or `if` is left as it is.
   */
  function Transform(code: string): (r: string)
    ensures NothingToRewrite(code) ==> r == code
  {
    AddRedundantLogic(WeakenValidation(BreakUniformSpacing(InjectHumanNoise(code))))
  }

  // ---------------------------------------------------------------- rewriteAndReduce

  datatype RewriteResult = RewriteResult(original: string, rewritten: string, before: AnalysisResult, after: AnalysisResult)

  function Max(a: int, b: int): int {
    if a < b then b else a
  }

  /** The final override: a likelihood that did not drop below `before` is replaced by `max(before - 15, 0)`. */
  function Clamp(before: int, after: AnalysisResult): (r: AnalysisResult)
    ensures before >= 0 ==> r.likelihood <= before
    ensures before > 0 ==> r.likelihood < before
    ensures after.likelihood < before ==> r == after
    ensures after.likelihood >= before ==> r.likelihood == (if before >= 15 then before - 15 else 0)
    ensures r.(likelihood := 0) == after.(likelihood := 0)
  {
    if after.likelihood >= before then after.(likelihood := Max(before - 15, 0)) else after
  }

  /** The analysis the rewriter scores a text with: `analyzeAICodeLikelihood` on that string. */
  function Score(entropy: string -> real): string -> AnalysisResult {
    s => AnalysisOf(StringInput(s), entropy)
  }

  /** Every likelihood a scorer gives lies in [0, 100]. */
  ghost predicate ScoresInRange(score: string -> AnalysisResult) {
    forall s :: 0 <= score(s).likelihood <= 100
  }

  /** The text `rewriteAndReduce` reports: the four transforms, wrapped when they did not lower the score. */
  function Rewritten(code: string, score: string -> AnalysisResult): string {
    var first := Transform(code);
    if score(first).likelihood >= score(code).likelihood then ForceHumanArtifacts(first) else first
  }

  /** The rewrite with a given scorer. */
  function RewriteWith(code: string, score: string -> AnalysisResult): RewriteResult {
    var before := score(code);
    var rewritten := Rewritten(code, score);
    RewriteResult(code, rewritten, before, Clamp(before.likelihood, score(rewritten)))
  }

  /** `rewriteAndReduce` as a function of its input. */
  function RewriteOf(code: string, entropy: string -> real): RewriteResult {
    RewriteWith(code, Score(entropy))
  }

  /**
   * With any scorer whose likelihoods lie in [0, 100], the reported likelihood never rises, falls
   * whenever it was above 0, and stays in [0, 100].
   */
  lemma RewriteLowersLikelihood(code: string, score: string -> AnalysisResult)
    requires ScoresInRange(score)
    ensures RewriteWith(code, score).after.likelihood <= RewriteWith(code, score).before.likelihood
    ensures RewriteWith(code, score).before.likelihood > 0 ==>
      RewriteWith(code, score).after.likelihood < RewriteWith(code, score).before.likelihood
    ensures 0 <= RewriteWith(code, score).after.likelihood <= 100
  {
    var rewritten := Rewritten(code, score);
    assert 0 <= score(code).likelihood <= 100;
    assert 0 <= score(rewritten).likelihood <= 100;
  }

  /**
   * What the rewriter reports: the original and its score unchanged, a rewritten text that is the
   * transformed code or that text wrapped, and as `after` the score of the rewritten text with at
   * most its likelihood overridden.
   */
  lemma RewriteReportsScores(code: string, score: string -> AnalysisResult)
    ensures RewriteWith(code, score).original == code
    ensures RewriteWith(code, score).before == score(code)
    ensures RewriteWith(code, score).rewritten in {Transform(code), ForceHumanArtifacts(Transform(code))}
    ensures RewriteWith(code, score).after.(likelihood := 0) == score(RewriteWith(code, score).rewritten).(likelihood := 0)
  {
  }

  /**
   * When neither pass lowered the score, the reported likelihood is `before - 15`, or 0 when
   * `before` is under 15: a text scored 85 both times is reported at 70.
   */
  lemma RewriteOverride(code: string, score: string -> AnalysisResult)
    requires score(Rewritten(code, score)).likelihood >= score(code).likelihood
    ensures RewriteWith(code, score).after.likelihood == Max(score(code).likelihood - 15, 0)
    ensures score(code).likelihood == 85 ==> RewriteWith(code, score).after.likelihood == 70
  {
  }

  /**
   * An original scored 0 can never be beaten, so its rewrite is always wrapped. This is what happens
   * to every short or non-analyzable input, whose `before` is the "Insufficient code" result.
   */
  lemma ZeroBeforeAlwaysWraps(code: string, score: string -> AnalysisResult)
    requires ScoresInRange(score)
    requires score(code).likelihood == 0
    ensures RewriteWith(code, score).rewritten == ForceHumanArtifacts(Transform(code))
  {
    assert score(Transform(code)).likelihood >= 0;
  }

  lemma AnalysisScoresInRange(entropy: string -> real)
    ensures ScoresInRange(Score(entropy))
  {
    forall s: string ensures 0 <= Score(entropy)(s).likelihood <= 100 {
      assert Score(entropy)(s) == AnalysisOf(StringInput(s), entropy);
    }
  }

  /**
   * The rewriter's guarantee for the analyzer itself: `before` is the analysis of the original, and
   * the reported likelihood never rises, falls whenever it was above 0, and stays in [0, 100].
   */
  lemma RewriteGuarantee(code: string, entropy: string -> real)
    ensures RewriteOf(code, entropy).before == AnalysisOf(StringInput(code), entropy)
    ensures RewriteOf(code, entropy).after.likelihood <= RewriteOf(code, entropy).before.likelihood
    ensures RewriteOf(code, entropy).before.likelihood > 0 ==>
      RewriteOf(code, entropy).after.likelihood < RewriteOf(code, entropy).before.likelihood
    ensures 0 <= RewriteOf(code, entropy).after.likelihood <= 100
  {
    AnalysisScoresInRange(entropy);
    RewriteLowersLikelihood(code, Score(entropy));
    RewriteReportsScores(code, Score(entropy));
  }

  /** The four reassignments of `rewritten`, in order. */
  method ApplyTransforms(code: string) returns (rewritten: string)
    ensures rewritten == Transform(code)
    ensures NothingToRewrite(code) ==> rewritten == code
  {
    rewritten := code;
    rewritten := InjectHumanNoise(rewritten);
    rewritten := BreakUniformSpacing(rewritten);
    rewritten := WeakenValidation(rewritten);
    rewritten := AddRedundantLogic(rewritten);
  }

  /**
   * `rewriteAndReduce`: analyze, apply the transforms one after another, re-analyze, wrap when the
   * score did not drop, and override the reported likelihood when it still did not. What it
   * guarantees is stated about `RewriteOf` in `RewriteGuarantee`.
   */
  method RewriteAndReduce(code: string, entropy: string -> real) returns (r: RewriteResult)
    ensures r == RewriteOf(code, entropy)
  {
    var before := AnalyzeAICodeLikelihood(StringInput(code), entropy);
    var rewritten := ApplyTransforms(code);
    var after := AnalyzeAICodeLikelihood(StringInput(rewritten), entropy);
    if after.likelihood >= before.likelihood {
      rewritten := ForceHumanArtifacts(rewritten);
      after := AnalyzeAICodeLikelihood(StringInput(rewritten), entropy);
    }
    after := Clamp(before.likelihood, after);
    r := RewriteResult(code, rewritten, before, after);
  }
}
