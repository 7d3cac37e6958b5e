# Password analyzer, modelled in Dafny

`analyzePassword` (in `src/utils/passwordAnalyzer.ts`) takes a password and returns four things:
- five ordered pass/fail checks: length at least 8, an upper-case letter, a lower-case letter, a digit, and a special character;
- an integer score that is not clamped;
- an ordered list of suggestions;
- a five-way strength label.

The score is built in fixed steps:
- +20 for each passed check;
- a length bonus of +10 or +5;
- three penalties: an ascending sequence (−10), a character repeated three times in a row (−10) and a common password inside the text (−20).

The label comes from the thresholds 40, 60, 80 and 95.

The project has six modules:

- `Chars`: the character classes of the four class checks and ASCII case folding. Folding stands in for `toLowerCase` and for the regex `i` flag.
- `Text`: substring occurrence (`String.prototype.includes`), with a searching function proved to decide it.
- `Rules`: each regular expression of the analyzer, stated as a predicate over the password's characters. It also has the length bonus and independent characterisations of the rules:
  - the sequence list is exactly "three folded characters climbing by one from a–d or 1–7";
  - a check a password passes, and a penalty it incurs, survive text written around the password.
- `Analyzer`: the result records and the analysis itself.
  - `Analyze` runs every test with `Inspect`, then builds the result with `Assemble`. The steps run in this order: the five checks, the length bonus, the length advice, then the sequence, repeat and common-password penalties.
  - The analysis is also described rule by rule: `CountMet`, `Deductions` and `Select` over a fixed `RuleOrder`.
  - Lemmas connect the two descriptions.
- `Scanners`: a loop for each test, each proved to decide its predicate, and a method analyzer proved equal to `Analyze`.
- `Scenarios`: the analysis of particular passwords and the label's edges.

Check messages and suggestions are tags (`CheckMessage`, `Suggestion`). Their exact wording is kept in `MessageText`, `SuggestionText` and `StrengthLabel`.

## Model

| member | source | states |
|---|---|---|
| Chars.FoldMatchesIgnoringCase | src/utils/passwordAnalyzer.ts:78 | a character folds to a lower-case letter or digit exactly when it equals it ignoring ASCII case, as the `i` flag compares them |
| Rules.FoldedOccurrence | src/utils/passwordAnalyzer.ts:78 | a pattern of lower-case letters and digits occurs at a position of the folded text exactly when each of its characters equals the text character it faces, ignoring case: searching the folded text is matching with the `i` flag |
| Chars.LowerAppend | src/utils/passwordAnalyzer.ts:92 | lower-casing works character by character: it commutes with concatenation |
| Text.Includes | src/utils/passwordAnalyzer.ts:91-93 | the substring search answers true exactly when the pattern occurs at some position of the text |
| Text.ContainsExtend | src/utils/passwordAnalyzer.ts:92 | a substring of a text is a substring of any text written around it |
| Rules.LengthBonus | src/utils/passwordAnalyzer.ts:68-72 | the bonus is 10 exactly from 12 characters, 5 exactly for 10 or 11, and 0 exactly below 10 |
| Rules.LengthBonusMonotone | src/utils/passwordAnalyzer.ts:68-72 | a longer password never earns a smaller bonus |
| Rules.SequenceIsAscendingRun | src/utils/passwordAnalyzer.ts:78 | the password contains one of the eleven listed sequences (case-insensitively) exactly when three neighbouring folded characters climb by one from a–d or 1–7 |
| Rules.ChecksSurviveExtension | src/utils/passwordAnalyzer.ts:18-66 | each of the five checks that a password passes is still passed with text added before and after it |
| Rules.PenaltiesSurviveExtension | src/utils/passwordAnalyzer.ts:78-97 | each penalty a password incurs is still incurred with text added before and after it: matching is by substring, not whole-string equality |
| Analyzer.Classify | src/utils/passwordAnalyzer.ts:99-104 | the label's rank is the number of thresholds 40, 60, 80, 95 that the score reaches |
| Analyzer.ClassifyMonotone | src/utils/passwordAnalyzer.ts:99-104 | a higher score never gets a lower label |
| Analyzer.Analyze | src/utils/passwordAnalyzer.ts:13-112 | every analysis has exactly five checks, a score in [−40, 110] and at most nine suggestions |
| Analyzer.CheckedReports | src/utils/passwordAnalyzer.ts:18-66 | the checks run so far are one report per requirement, in requirement order, passed exactly when the outcome says so |
| Analyzer.CheckedScore | src/utils/passwordAnalyzer.ts:18-66 | each passed check adds 20 to the score and each failed one adds nothing |
| Analyzer.CheckedSuggestions | src/utils/passwordAnalyzer.ts:18-66 | each failed check adds exactly its own remedy, in check order, and a passed one adds none |
| Analyzer.AssembleBounds | src/utils/passwordAnalyzer.ts:16-97 | whatever the test outcomes, there are five checks, the score lies in [−40, 110] and there are at most nine suggestions |
| Analyzer.AssembledSuggestions | src/utils/passwordAnalyzer.ts:15-97 | the suggestions are the rules that fire, taken in rule order |
| Analyzer.AssembledSuggestion | src/utils/passwordAnalyzer.ts:15-97 | a suggestion is present exactly when its rule fires |
| Analyzer.ChecksFollowRequirements | src/utils/passwordAnalyzer.ts:18-66 | exactly five checks; check k passes exactly when the password meets requirement k, and its message says which way it went |
| Analyzer.ScoreFormula | src/utils/passwordAnalyzer.ts:16-97 | the score is 20 per met requirement plus the length bonus, less 10 for a sequence, 10 for a repeat and 20 for a common password |
| Analyzer.SuggestionsFollowRules | src/utils/passwordAnalyzer.ts:15-97 | the suggestions equal the rule-by-rule selection of the rules that fire for the password |
| Analyzer.SuggestionsInRuleOrder | src/utils/passwordAnalyzer.ts:15-97 | the suggestions are strictly increasing in rule order, so none appears twice |
| Analyzer.RemedyExactlyWhenUnmet | src/utils/passwordAnalyzer.ts:18-66 | a requirement's remedy is suggested exactly when the password does not meet it |
| Analyzer.LengthAdviceExactlyWhenShort | src/utils/passwordAnalyzer.ts:74-76 | the advice to use 12 or more characters is given exactly below 12 characters |
| Analyzer.PenaltyAdviceExactlyWhenDue | src/utils/passwordAnalyzer.ts:78-97 | each penalty's advice is given exactly when its penalty applies |
| Analyzer.LabelFollowsScore | src/utils/passwordAnalyzer.ts:99-104 | the label of every analysis is the one whose rank equals the number of thresholds 40, 60, 80, 95 its score reaches |
| Analyzer.SuggestionCount | src/utils/passwordAnalyzer.ts:15-97 | one suggestion per failed requirement, one for a length under 12 and one per applied penalty |
| Analyzer.PartialBonusKeepsLengthAdvice | src/utils/passwordAnalyzer.ts:68-76 | 10 or 11 characters earn the +5 bonus and still get the advice to use 12 or more |
| Scanners.ScanClass | src/utils/passwordAnalyzer.ts:28-58 | the class scan finds a character of the class exactly when one exists |
| Scanners.ScanRepeat | src/utils/passwordAnalyzer.ts:84 | the run-length scan decides the repeat pattern: three equal characters in a row, not line terminators |
| Scanners.ScanSequence | src/utils/passwordAnalyzer.ts:78 | the window scan over the folded text decides the sequence pattern |
| Scanners.ScanCommon | src/utils/passwordAnalyzer.ts:90-93 | the word-by-word search decides whether a common password occurs in the lower-cased text |
| Scanners.AnalyzePassword | src/utils/passwordAnalyzer.ts:13-112 | the analyzer built from the scanners returns the same analysis as `Analyze` |
| Scenarios.ClassifyEdges | src/utils/passwordAnalyzer.ts:99-104 | the label changes exactly at 40, 60, 80 and 95, and negative scores are weak |
| Scenarios.EmptyPassword | src/utils/passwordAnalyzer.ts:13-112 | the empty password fails all five checks: score 0, weak, six suggestions |
| Scenarios.PlainPassword | src/utils/passwordAnalyzer.ts:13-112 | "password" scores 40 − 20 = 20 and is weak, with five suggestions |
| Scenarios.CapitalisedPassword | src/utils/passwordAnalyzer.ts:13-112 | "Password123!" scores 110 − 10 − 20 = 80, exactly strong |
| Scenarios.MixedPassword | src/utils/passwordAnalyzer.ts:13-112 | "Tr7#mK9$qLpZ" scores 110 (above 100, as the score is not clamped) and is very strong with no suggestions |

## Left out

- `src/App.tsx` is not part of this model. It is user-interface code that only displays the analysis.
- No regular-expression engine is modelled. Each of the analyzer's regular expressions is written as a predicate over characters. The `Scanners` module proves a linear scan for each.
- `toLowerCase` is modelled as ASCII folding only: A–Z become a–z and every other character is kept. Non-ASCII case mapping, including characters whose length changes when lower-cased, is not modelled. With the `i` flag, the sequence pattern's ASCII alternatives are matched by ASCII letters only, so folding is exact there.
- Strings are sequences of characters. `password.length` is the sequence length; UTF-16 code units and surrogate pairs are not modelled. One visible difference is in the repeat rule: three equal characters outside the Basic Multilingual Plane (an emoji written three times) satisfy `HasRepeat`. The source's non-unicode `/(.)\1{2,}/` compares surrogate halves there and finds no repeat.
- Message, suggestion and label wording is carried as tags. The exact strings appear in `MessageText`, `SuggestionText` and `StrengthLabel`, but no property is stated about their spelling.
- Analyzer.Analyze: the score bound [−40, 110] is the arithmetic one, and the lower end is not claimed to be reachable.
