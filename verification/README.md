# AI code-likelihood detector and rewriter — a Dafny model

The web project lets a user upload source code, scores how likely it is that the code was written
by an AI assistant, and offers a rewrite that lowers that score. This project models the two
pieces of that behaviour that carry logic. It also models the small shared helpers of the pages.

- **The analyzer** (`analyzeAICodeLikelihood`).
  - Input that is not a string, or whose trimmed length is under 30, gets the fixed
    "Insufficient code" result.
  - Any other input is turned into a context: lines, non-blank lines, trimmed lines, tokens and a
    language tag.
  - Ten scoring modules run over the context. Each returns a score under its own ceiling, plus
    reasons.
  - The scores are normalised, weighted and averaged into an integer likelihood in [0, 100]. The
    confidence is `min(50 + 0.5 · non-blank lines, 95)`.
- **The rewriter** (`rewriteAndReduce`).
  - Four text transforms are applied in order, then the text is re-scored.
  - If the score did not drop, the text is wrapped in human-looking artifacts and re-scored.
  - If it still did not drop, the reported likelihood is overridden with `max(before - 15, 0)`.
- **The helpers** (`js/utils.js`).
  - A first-match language sniffer.
  - Banning, unbanning and ban lookup over the stored user list.

Modules:

| file | module | contents |
|---|---|---|
| `text.dfy` | `Text` | JavaScript string primitives. The `\s`/`trim()` white space, `\w`, `includes`, ASCII case folding, `split("\n")`/`join("\n")` and their round trip. |
| `patterns.dfy` | `Patterns` | Every regular expression of the detector, modelled exactly. A global match, count or replace is a scan with a matcher `(text, index) -> match length`. |
| `bodies.dfy` | `Bodies` | `extractFunctionBodies`, as the line-by-line loop and as the scan function it is proved against. `getStatistics`. |
| `detector.dfy` | `Detector` | The context, the ten modules, the module table with weights, the aggregation, `analyzeAICodeLikelihood` and `concludeAIDetection`. |
| `rewriter.dfy` | `Rewriter` | The transforms, `forceHumanArtifacts` and `rewriteAndReduce`. |
| `utils.dfy` | `Utils` | `detectLanguage` of the helpers, and the user list with `banUser`, `unbanUser` and `isUserBanned`. |

Modelling choices:

- **Numbers.** JavaScript numbers are modelled as reals, and `Math.round` as `floor(x + 0.5)`.
  - A count divided by a zero count follows IEEE rules: `0/0` is NaN and compares false, and `n/0`
    is Infinity and compares true.
  - The test `cv < 0.25` is stated without a square root, as `16 · variance < mean²`.
- **Entropy.** `calculateEntropy` uses `Math.log2` in floating point. It is a parameter
  `entropy: string -> real` of the analysis, so every property holds whatever it returns.
- **Case folding.** The model folds ASCII letters only. JavaScript also folds other letters (`É`
  and `é`), but that never changes a result here:
  - The case-insensitive regexes (js/plagiarism-detector.js:122-128, 244) are written in ASCII.
    Without the `u` flag, such a regex never matches a non-ASCII character against an ASCII one.
  - `toLowerCase` (js/plagiarism-detector.js:167) is applied only to identifier tokens, which are
    ASCII by their own pattern (js/plagiarism-detector.js:150).

## Model

| member | source | states |
|---|---|---|
| `Text.Trim` | js/plagiarism-detector.js:49 | The result is a slice of the text with only white space cut from its two ends. It is empty exactly when the text is all white space; otherwise it starts and ends with a non-space character. |
| `Text.TrimKeepsInner` | js/plagiarism-detector.js:49 | The trimmed text contains the whole piece between two non-space characters, so it is at least that long. |
| `Text.Lines` | js/plagiarism-detector.js:61 | Splitting on newlines gives at least one piece, and no piece holds a newline. |
| `Text.Filter` | js/plagiarism-detector.js:62 | The kept elements are exactly those satisfying the test, each as many times as it occurs in the input, and none is added. |
| `Text.Join` | js/plagiarism-detector.js:323 | Every joined piece occurs in the joined text. |
| `Text.LinesOfJoin` | js/plagiarism-detector.js:323 | Splitting on newlines undoes joining with newlines, for lines that hold no newline. A recorded body therefore has exactly as many lines as were collected. |
| `Text.JoinOfLines` | js/plagiarism-detector.js:61 | Joining the split lines with newlines gives back the text. |
| `Patterns.Tokenize` | js/plagiarism-detector.js:8-12 | There are never more tokens than characters, and every token is a non-empty piece of the code. |
| `Patterns.CollapseSpaces` | js/plagiarism-detector.js:257 | After every white-space run becomes one space, the only white space left is single `' '` characters, never two side by side, and the text is no longer than before. |
| `Patterns.ReplaceLength` | js/plagiarism-detector.js:381 | A global replace whose replacement is always `grow` characters longer than the match lengthens the text by `grow` per match. |
| `Bodies.ExtractFunctionBodies` | js/plagiarism-detector.js:308-328 | The loop that updates buffer, depth and bodies returns what the scan specification does. There are fewer bodies than lines, and every body has at least two lines: its header and at least one later line. |
| `Bodies.Step` | js/plagiarism-detector.js:314-326 | A header line restarts the buffer with itself alone, at depth 0, so its own braces are never counted. Any other line is ignored while the buffer is empty. Otherwise it is appended and counted, and the buffer is recorded as a body whenever the depth is back at 0. |
| `Bodies.Scan` | js/plagiarism-detector.js:314-326 | The scan of no lines is the initial state. The first line never closes a body, and no line closes more than one, so there are fewer bodies than lines. |
| `Bodies.FunctionBodies` | js/plagiarism-detector.js:308-328 | There are fewer bodies than lines of code. |
| `Bodies.BodiesProperties` | js/plagiarism-detector.js:314-326 | For every code text, the body scan records fewer bodies than lines, each with at least two lines. |
| `Bodies.GetStatistics` | js/plagiarism-detector.js:25-36 | No values give mean and variance 0. Otherwise mean times count is the sum, and the variance is never negative. |
| `Bodies.EqualValuesAreUniform` | js/plagiarism-detector.js:25-36 | Equal positive values have their common value as mean, variance 0, and a coefficient of variation below 0.25. |
| `Bodies.ZeroVarianceMeansEqualValues` | js/plagiarism-detector.js:27-29 | Conversely, a variance of 0 means every value equals the mean. |
| `Detector.DetectLanguage` | js/plagiarism-detector.js:38-44 | The tag is one of five values. Each holds exactly when its own signatures occur and no earlier group's do, in the order Python, JavaScript, C++, Java. "generic" holds exactly when no signature occurs. |
| `Detector.SignaturesNeedWholeWords` | js/plagiarism-detector.js:39 | `undefined` contains `def` only inside a word, so it is tagged "generic". |
| `Detector.BuildContext` | js/plagiarism-detector.js:59-66 | The lines are the newline split of the code and join back to it. The trimmed lines are the lines trimmed one by one. The non-empty lines are exactly the lines that are not all white space, each kept as often as it occurs. The tokens and the language come from the tokenizer and the sniffer. |
| `Detector.AnalyzeComments` | js/plagiarism-detector.js:112-146 | The score stays within the ceiling of 15, with a reason exactly when it scores. Without comment lines the score is 0. |
| `Detector.AnalyzeNaming` | js/plagiarism-detector.js:148-177 | The score stays within the ceiling of 12, with a reason exactly when it scores. Without identifiers of three or more characters the score is 0. |
| `Detector.AnalyzeStructure` | js/plagiarism-detector.js:179-202 | The score stays within the ceiling of 14. It is 0 unless there are three or more `function`/`def` words or three or more extracted bodies. |
| `Detector.AnalyzeCompleteness` | js/plagiarism-detector.js:204-218 | The score stays within the ceiling of 12. It is positive exactly when there are three or more type or null checks. |
| `Detector.AnalyzeErrorHandling` | js/plagiarism-detector.js:220-232 | The score stays within the ceiling of 10. It is positive exactly when there are two or more `try {` blocks. |
| `Detector.DetectAIArtifacts` | js/plagiarism-detector.js:234-250 | The score stays within the ceiling of 18. Markdown fences or headings alone earn at least 10. |
| `Detector.AnalyzeEntropy` | js/plagiarism-detector.js:252-264 | The score stays within the ceiling of 8, whatever the entropy function returns. Code of at most 200 characters scores 0. |
| `Detector.AnalyzeIdioms` | js/plagiarism-detector.js:266-277 | The score stays within the ceiling of 10. It is positive exactly when `.map(`, `.filter(` or `Promise.all` occurs. |
| `Detector.AnalyzeDebugAbsence` | js/plagiarism-detector.js:279-290 | The score stays within the ceiling of 11. It is 0 exactly when `console.log`, `debugger`, `TODO` or `FIXME` occurs. |
| `Detector.AnalyzeStatisticalPatterns` | js/plagiarism-detector.js:292-304 | The score stays within the ceiling of 10. It is positive exactly when more than ten space-padded operators occur. |
| `Detector.Run` | js/plagiarism-detector.js:86-87 | Every module of the table returns a result under its positive ceiling, with reasons exactly when it scores. |
| `Detector.RunModules` | js/plagiarism-detector.js:81-92 | The loop over the module table leaves the weighted score, the total weight, the breakdown and the reasons equal to the accumulations over the whole table. |
| `Detector.TotalWeightOfPipeline` | js/plagiarism-detector.js:68-79 | The ten module weights add up to 11. |
| `Detector.WeightedSumBounds` | js/plagiarism-detector.js:89-90 | For any run of modules whose results are all within their ceilings, the accumulated weighted score lies between 0 and the accumulated weight. |
| `Detector.BreakdownHolds` | js/plagiarism-detector.js:88 | After any run of modules, each module that ran is recorded under its own name with its own result. |
| `Detector.Round` | js/plagiarism-detector.js:95 | The result is the nearest integer, within half a unit below and strictly less than half a unit above; halves round up. |
| `Detector.Likelihood` | js/plagiarism-detector.js:94-97 | The likelihood is at most 100. Below 100 it is the nearest whole percentage of the weighted score over the total weight. It is 100 only when that percentage is at least 99.5. |
| `Detector.LikelihoodRange` | js/plagiarism-detector.js:94-97 | Rounding 100 times a normalised score in [0, 1] and capping at 100 gives an integer in [0, 100]. |
| `Detector.Confidence` | js/plagiarism-detector.js:99 | The confidence lies in [50, 95]. It reaches 95 exactly when there are 90 or more non-blank lines. |
| `Detector.Dedup` | js/plagiarism-detector.js:105 | The deduplicated reasons hold exactly the collected reasons, each once, and are no more numerous. |
| `Detector.Analyze` | js/plagiarism-detector.js:81-107 | An analyzed context gets a likelihood in [0, 100] and the confidence `min(50 + 0.5 · lines, 95)`. It keeps the context's language. Its reasons are exactly those the modules gave. |
| `Detector.AnalysisOf` | js/plagiarism-detector.js:48-66 | A non-string or short input gets the fixed "Insufficient code" result. Every input gets a likelihood in [0, 100]. |
| `Detector.BreakdownEntry` | js/plagiarism-detector.js:88 | The breakdown holds each module's own result under the module's function name, and every entry is within its ceiling. |
| `Detector.DebugArtifactsScoreNothing` | js/plagiarism-detector.js:279-290 | In the breakdown of code that has a debug artifact, `analyzeDebugAbsence` scores 0. |
| `Detector.AnalyzeAICodeLikelihood` | js/plagiarism-detector.js:48-108 | The short-circuit, then the loop over the module table: it returns the analysis function's result. The likelihood is in [0, 100], degenerate input gets "Insufficient code", and analyzed input gets a confidence in [50, 95]. |
| `Detector.ConcludeAIDetection` | js/plagiarism-detector.js:332-338 | There are five labels, and each holds exactly on its likelihood band: 80 and up, 60–79, 40–59, 20–39, under 20. |
| `Rewriter.InjectHumanNoise` | js/plagiarism-detector.js:375-378 | The result always mentions `console.log` and ends with the original code. It equals the code exactly when the code already mentions `console.log`. |
| `Rewriter.InjectHumanNoiseIdempotent` | js/plagiarism-detector.js:375-378 | Injecting noise twice is the same as injecting it once. |
| `Rewriter.BreakUniformSpacing` | js/plagiarism-detector.js:380-382 | Each spaced operator grows the text by exactly one character. Without spaced operators the text is unchanged. |
| `Rewriter.WeakenValidation` | js/plagiarism-detector.js:384-389 | Code without `typeof` is unchanged. |
| `Rewriter.AddRedundantLogic` | js/plagiarism-detector.js:391-396 | Code without `if` is unchanged. |
| `Rewriter.Transform` | js/plagiarism-detector.js:346-351 | Code that already mentions `console.log` and has no spaced operator, `typeof` or `if` is left unchanged by the four transforms. |
| `Rewriter.ApplyTransforms` | js/plagiarism-detector.js:346-351 | The four reassignments in order give the composed transform, so such code comes out unchanged. |
| `Rewriter.ForceHumanArtifacts` | js/plagiarism-detector.js:398-407 | The wrapped text contains the code, a `TODO` and a `console.log`, and its trimmed length is at least 30. |
| `Rewriter.ForcedArtifactsSilenceDebugModule` | js/plagiarism-detector.js:398-407 | Wrapped text is always analyzed rather than short-circuited, and `analyzeDebugAbsence` scores 0 on it. |
| `Rewriter.Clamp` | js/plagiarism-detector.js:361-363 | A likelihood that did not drop below `before` is replaced by `before - 15`, or by 0 when `before` is under 15. So after the override the likelihood is at most `before`, and below it when `before` is positive. A result that already dropped is kept. Nothing else of the result changes. |
| `Rewriter.RewriteOverride` | js/plagiarism-detector.js:355-363 | When neither the transforms nor the wrapping lowered the score, the reported likelihood is `max(before - 15, 0)`; an original scored 85 is reported at 70. |
| `Rewriter.ZeroBeforeAlwaysWraps` | js/plagiarism-detector.js:355-358 | For any scorer in [0, 100], an original scored 0 is always rewritten as the transformed code wrapped by `forceHumanArtifacts`. |
| `Rewriter.RewriteLowersLikelihood` | js/plagiarism-detector.js:344-370 | With any scorer whose likelihoods lie in [0, 100], `after` never exceeds `before`. It is strictly below `before` whenever `before` is positive, and stays in [0, 100]. |
| `Rewriter.RewriteReportsScores` | js/plagiarism-detector.js:344-370 | The rewrite reports:<br>• the original unchanged, with its score as `before`;<br>• as the rewritten text, either the transformed code or that text wrapped;<br>• as `after`, the score of the rewritten text with at most its likelihood overridden. |
| `Rewriter.AnalysisScoresInRange` | js/plagiarism-detector.js:94-97 | The analyzer gives every text a likelihood in [0, 100]. |
| `Rewriter.RewriteGuarantee` | js/plagiarism-detector.js:355-363 | The guarantee holds for the analyzer itself. `before` is the analysis of the original. The reported likelihood never rises, falls whenever it was above 0, and stays in [0, 100]. This holds for every input, short or not. |
| `Rewriter.RewriteAndReduce` | js/plagiarism-detector.js:344-370 | The step-by-step rewrite returns exactly the result about which `RewriteGuarantee` proves the guarantee. |
| `Utils.DetectLanguage` | js/utils.js:44-54 | The label is one of five values, and the empty text gives "Unknown". Each label holds exactly when one of its substrings is present and no earlier label's is: C++, then Python, then JavaScript, then Java. |
| `Utils.DetectLanguageMatchesTable` | js/utils.js:47-53 | The sniffer agrees with trying the table of seven substrings in order. |
| `Utils.FindFrom` | js/utils.js:40 | The lookup finds the first user with the email, or reports that none has it. |
| `Utils.IsUserBanned` | js/utils.js:38-42 | An unknown email is not banned. Otherwise the email is banned exactly when the first user with it is flagged. |
| `Utils.WithBanned` | js/utils.js:24-26 | The list keeps its length. Every user with the email gets the new flag, and every other user is unchanged. |
| `Utils.BanMakesBanned` | js/utils.js:22-28 | After a ban, an email is banned exactly when some user has it. |
| `Utils.UnbanMakesUnbanned` | js/utils.js:30-36 | After an unban, the email is not banned. |
| `Utils.OtherUsersUnaffected` | js/utils.js:24-34 | A ban or unban of one email leaves every other email's status as it was. |
| `Utils.LastUpdateWins` | js/utils.js:22-36 | Of two ban/unban updates of the same email, only the last one matters. |
| `Utils.UserStore.BanUser` | js/utils.js:22-28 | The stored list becomes the list with the email flagged. The email is then banned exactly when some user had it. |
| `Utils.UserStore.UnbanUser` | js/utils.js:30-36 | The stored list becomes the list with the email unflagged, and the email is then not banned. |
| `Utils.UserStore.SetBanned` | js/utils.js:24-26 | The in-place `forEach` leaves exactly the list in which every user with the email carries the new flag. |
| `Utils.UserStore.Banned` | js/utils.js:38-42 | An email that no stored user has is not banned. |

## Left out

- **`calculateEntropy`** (js/plagiarism-detector.js:14-23): a parameter of the analysis. It computes `log2` in floating point, which is not modelled.
- **`Bodies.GetStatistics`**: does not compute the `stdDev` and `cv` fields, which need `Math.sqrt`. The one use of `cv`, the test `cv < 0.25`, is stated exactly by `CvBelowQuarter`. The contract does not give the variance's value. It states only that the variance is not negative, and the two lemmas state when it is 0.
- **Floating point**: IEEE double rounding is not modelled. Weighted sums, divisions and the confidence are exact reals, so a rounded likelihood that lands within one ulp of a `.5` boundary may differ from the program's.
- **String lengths**: counted in characters rather than UTF-16 code units. Text outside the Basic Multilingual Plane has a different `length` in JavaScript.
- **Key order**: the breakdown is a map. The insertion order of the JavaScript object's keys is not kept.
- **Reason order**: the deduplicated reasons keep first occurrences in order. The contracts state only which reasons they hold.
- **`Rewriter.RewriteAndReduce`**: its input is always a string. Other values are not modelled.
  - Most non-strings do not throw. `injectHumanNoise` turns them into text through the regex test and the template literal (js/plagiarism-detector.js:376-377). So, for example, `null` is rewritten as the text `null`, with the "Insufficient code" result as `before`. Since that `before` scores 0, no rewrite can score lower, so the text is always wrapped by `forceHumanArtifacts` (see `Rewriter.ZeroBeforeAlwaysWraps`).
  - A value whose text form already mentions `console.log` comes back from `injectHumanNoise` unchanged, and then the `.replace` call at js/plagiarism-detector.js:381 throws.
  - A Symbol throws when it is converted to text.
- **`Utils.DetectLanguage`**: its input is always a string. `null` and `undefined` give "Unknown" through `!code`, like the empty string; that path is not modelled.
- **Persistence**: the user list lives in `localStorage` as JSON, read before and written after each operation. Here it is the `users` field of a `UserStore`. A stored `banned` value that is absent or not a boolean is not modelled; it is a boolean here.
- **History helpers**: `saveHistory`, `getHistory` and `getAllUploads` (js/utils.js:5-17) only move upload records in and out of `localStorage`.
- **Page code**: the dark-mode toggle in js/utils.js:57-91 and js/theme.js change the DOM and hold no logic.
- **Other pages**: js/auth.js, js/admin.js, js/dashboard.js, js/export.js and js/upload.js are not part of this model.
