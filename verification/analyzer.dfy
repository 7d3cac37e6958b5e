/**
 The password analyzer: five ordered requirement checks, a score built in
 fixed steps, suggestions in rule order, and a five-way strength label.
 */
module Analyzer {
  import opened Rules

  // ---------------------------------------------------------------------------
  // Data model
  // ---------------------------------------------------------------------------

  /** The five mandatory requirements, in the order their checks are reported. */
  datatype Requirement = Length | Uppercase | Lowercase | Digit | Special

  const Requirements: seq<Requirement> := [Length, Uppercase, Lowercase, Digit, Special]

  /** Whether `s` meets requirement `r`. */
  predicate Meets(s: string, r: Requirement) {
    match r
    case Length => HasMinLength(s)
    case Uppercase => HasUppercase(s)
    case Lowercase => HasLowercase(s)
    case Digit => HasDigit(s)
    case Special => HasSpecial(s)
  }

  /** The message of a check names its requirement and whether it was met. */
  datatype CheckMessage = Satisfied(requirement: Requirement) | Unsatisfied(requirement: Requirement)

  datatype Check = Check(passed: bool, message: CheckMessage)

  /** The nine suggestions, declared in the order the analyzer may emit them. */
  datatype Suggestion =
    | UseEightChars
    | AddUppercase
    | AddLowercase
    | AddNumbers
    | AddSpecial
    | UseTwelveChars
    | AvoidSequences
    | AvoidRepeats
    | AvoidCommonWords

  /** The suggestion a failed requirement produces. */
  function Remedy(r: Requirement): Suggestion {
    match r
    case Length => UseEightChars
    case Uppercase => AddUppercase
    case Lowercase => AddLowercase
    case Digit => AddNumbers
    case Special => AddSpecial
  }

  datatype Strength = Weak | Fair | Good | Strong | VeryStrong

  datatype Analysis = Analysis(
    strength: Strength,
    checks: seq<Check>,
    suggestions: seq<Suggestion>,
    score: int)

  // ---------------------------------------------------------------------------
  // Wording shown to the user
  // ---------------------------------------------------------------------------

  function MessageText(m: CheckMessage): string {
    match m
    case Satisfied(Length) => "Contains at least 8 characters"
    case Unsatisfied(Length) => "Must be at least 8 characters long"
    case Satisfied(Uppercase) => "Contains uppercase letters"
    case Unsatisfied(Uppercase) => "Should contain uppercase letters (A-Z)"
    case Satisfied(Lowercase) => "Contains lowercase letters"
    case Unsatisfied(Lowercase) => "Should contain lowercase letters (a-z)"
    case Satisfied(Digit) => "Contains numbers"
    case Unsatisfied(Digit) => "Should contain numbers (0-9)"
    case Satisfied(Special) => "Contains special characters"
    case Unsatisfied(Special) => "Should contain special characters (!@#$%^&*)"
  }

  function SuggestionText(g: Suggestion): string {
    match g
    case UseEightChars => "Use at least 8 characters"
    case AddUppercase => "Add uppercase letters"
    case AddLowercase => "Add lowercase letters"
    case AddNumbers => "Add numbers"
    case AddSpecial => "Add special characters like !@#$%^&*"
    case UseTwelveChars => "Use 12 or more characters for better security"
    case AvoidSequences => "Avoid sequential characters like \"abc\" or \"123\""
    case AvoidRepeats => "Avoid repeating characters like \"aaa\" or \"111\""
    case AvoidCommonWords => "Avoid common words and phrases"
  }

  function StrengthLabel(st: Strength): string {
    match st
    case Weak => "weak"
    case Fair => "fair"
    case Good => "good"
    case Strong => "strong"
    case VeryStrong => "very strong"
  }

  // ---------------------------------------------------------------------------
  // Classification
  // ---------------------------------------------------------------------------

  /** Lower bounds of fair, good, strong and very strong. */
  const Thresholds: seq<int> := [40, 60, 80, 95]

  /** Position of a label in the order weak < fair < good < strong < very strong. */
  function Rank(st: Strength): nat {
    match st
    case Weak => 0
    case Fair => 1
    case Good => 2
    case Strong => 3
    case VeryStrong => 4
  }

  /**
   First matching threshold wins. The label's rank is the number of
   thresholds the score reaches: threshold `k` is reached exactly when the
   rank exceeds `k`.
   */
  function Classify(score: int): (st: Strength)
    ensures forall k :: 0 <= k < |Thresholds| ==> (Thresholds[k] <= score <==> k < Rank(st))
  {
    if score < 40 then Weak
    else if score < 60 then Fair
    else if score < 80 then Good
    else if score < 95 then Strong
    else VeryStrong
  }

  /** A higher score never gets a lower label. */
  lemma ClassifyMonotone(x: int, y: int)
    requires x <= y
    ensures Rank(Classify(x)) <= Rank(Classify(y))
  {
    var rx := Rank(Classify(x));
    if rx > 0 {
      assert Thresholds[rx - 1] <= x;
    }
  }

  // ---------------------------------------------------------------------------
  // The analysis, step by step
  // ---------------------------------------------------------------------------

  /** The outcome of each of the eight tests the analyzer runs on a password. */
  datatype Findings = Findings(
    minLength: bool,
    uppercase: bool,
    lowercase: bool,
    digit: bool,
    special: bool,
    sequence: bool,
    repeat: bool,
    common: bool)

  /** Runs every test on the password. */
  function Inspect(password: string): Findings {
    Findings(
      HasMinLength(password), HasUppercase(password), HasLowercase(password),
      HasDigit(password), HasSpecial(password),
      HasSequence(password), HasRepeat(password), IsCommon(password))
  }

  /** Whether the test outcomes `f` record requirement `r` as met. */
  predicate Passes(f: Findings, r: Requirement) {
    match r
    case Length => f.minLength
    case Uppercase => f.uppercase
    case Lowercase => f.lowercase
    case Digit => f.digit
    case Special => f.special
  }

  /** What the analyzer has accumulated so far. */
  datatype Tally = Tally(checks: seq<Check>, suggestions: seq<Suggestion>, score: int)

  /** The check reported for requirement `r`, passed or not. */
  function Report(r: Requirement, passed: bool): Check {
    Check(passed, if passed then Satisfied(r) else Unsatisfied(r))
  }

  /** One requirement check: report it, then score +20 or suggest its remedy. */
  function Require(t: Tally, r: Requirement, passed: bool): Tally {
    Tally(
      t.checks + [Report(r, passed)],
      t.suggestions + (if passed then [] else [Remedy(r)]),
      t.score + (if passed then 20 else 0))
  }

  /** One penalty: when it applies, deduct `amount` and add its suggestion. */
  function Penalize(t: Tally, applies: bool, amount: int, g: Suggestion): Tally {
    Tally(
      t.checks,
      t.suggestions + (if applies then [g] else []),
      t.score - (if applies then amount else 0))
  }

  /** The tally after the first `k` requirement checks, run in order from an empty tally. */
  function Checked(f: Findings, k: nat): Tally
    requires k <= |Requirements|
  {
    if k == 0 then Tally([], [], 0)
    else Require(Checked(f, k - 1), Requirements[k - 1], Passes(f, Requirements[k - 1]))
  }

  /**
   Builds the analysis from the length and the test outcomes. Every step
   runs, in this order: the five checks, the length bonus, the length
   advice, then the sequence, repeat and common-password penalties; the
   label comes from the final score, which is not clamped.
   */
  function Assemble(length: nat, f: Findings): Analysis {
    var t5 := Checked(f, |Requirements|);
    var t6 := t5.(score := t5.score + LengthBonus(length));
    var t7 := t6.(suggestions := t6.suggestions + (if length < RecommendedLength then [UseTwelveChars] else []));
    var t8 := Penalize(t7, f.sequence, 10, AvoidSequences);
    var t9 := Penalize(t8, f.repeat, 10, AvoidRepeats);
    var t10 := Penalize(t9, f.common, 20, AvoidCommonWords);
    Analysis(Classify(t10.score), t10.checks, t10.suggestions, t10.score)
  }

  /** Analyzes one password: run the tests, then assemble the result. */
  function Analyze(password: string): (a: Analysis)
    ensures |a.checks| == |Requirements|
    ensures -40 <= a.score <= 110
    ensures |a.suggestions| <= 9
  {
    AssembleBounds(|password|, Inspect(password));
    Assemble(|password|, Inspect(password))
  }

  // ---------------------------------------------------------------------------
  // The analysis, described rule by rule
  // ---------------------------------------------------------------------------

  /** The recorded outcome of a requirement is whether the password meets it. */
  lemma InspectMeets(s: string, r: Requirement)
    ensures Passes(Inspect(s), r) == Meets(s, r)
  {
  }

  /** How many of the first `k` requirements the outcomes record as met. */
  function CountMet(f: Findings, k: nat): (n: nat)
    requires k <= |Requirements|
    ensures n <= k
  {
    if k == 0 then 0 else CountMet(f, k - 1) + (if Passes(f, Requirements[k - 1]) then 1 else 0)
  }

  /** The points the three penalties take away together. */
  function Deductions(f: Findings): nat {
    (if f.sequence then 10 else 0) + (if f.repeat then 10 else 0) + (if f.common then 20 else 0)
  }

  /** How many penalties apply. */
  function PenaltyCount(f: Findings): nat {
    (if f.sequence then 1 else 0) + (if f.repeat then 1 else 0) + (if f.common then 1 else 0)
  }

  /** The condition under which each suggestion is given, for a password of length `n`. */
  predicate Fires(n: nat, f: Findings, g: Suggestion) {
    match g
    case UseEightChars => !Passes(f, Length)
    case AddUppercase => !Passes(f, Uppercase)
    case AddLowercase => !Passes(f, Lowercase)
    case AddNumbers => !Passes(f, Digit)
    case AddSpecial => !Passes(f, Special)
    case UseTwelveChars => n < RecommendedLength
    case AvoidSequences => f.sequence
    case AvoidRepeats => f.repeat
    case AvoidCommonWords => f.common
  }

  /** The rule order: the order in which suggestions can be produced. */
  const RuleOrder: seq<Suggestion> := [
    UseEightChars, AddUppercase, AddLowercase, AddNumbers, AddSpecial,
    UseTwelveChars, AvoidSequences, AvoidRepeats, AvoidCommonWords
  ]

  /** Where a suggestion stands in the rule order. */
  function Position(g: Suggestion): (p: nat)
    ensures p < |RuleOrder| && RuleOrder[p] == g
  {
    match g
    case UseEightChars => 0
    case AddUppercase => 1
    case AddLowercase => 2
    case AddNumbers => 3
    case AddSpecial => 4
    case UseTwelveChars => 5
    case AvoidSequences => 6
    case AvoidRepeats => 7
    case AvoidCommonWords => 8
  }

  /** Every suggestion stands in the rule order at its own position. */
  lemma RuleOrderPositions()
    ensures forall i :: 0 <= i < |RuleOrder| ==> Position(RuleOrder[i]) == i
  {
    forall i | 0 <= i < |RuleOrder|
      ensures Position(RuleOrder[i]) == i
    {
    }
  }

  /** The suggestions among the first `k` rules whose rule fires, in rule order. */
  function Select(n: nat, f: Findings, k: nat): seq<Suggestion>
    requires k <= |RuleOrder|
  {
    if k == 0 then []
    else Select(n, f, k - 1) + (if Fires(n, f, RuleOrder[k - 1]) then [RuleOrder[k - 1]] else [])
  }

  /** Strictly increasing in rule order, hence also free of duplicates. */
  predicate InRuleOrder(gs: seq<Suggestion>) {
    forall i, j :: 0 <= i < j < |gs| ==> Position(gs[i]) < Position(gs[j])
  }

  /** A suggestion is selected exactly when it is among the first `k` rules and fires. */
  lemma {:induction false} SelectMembers(n: nat, f: Findings, k: nat)
    requires k <= |RuleOrder|
    ensures forall g :: g in Select(n, f, k) <==> Position(g) < k && Fires(n, f, g)
  {
    RuleOrderPositions();
    if k > 0 {
      SelectMembers(n, f, k - 1);
    }
  }

  /** The selection is in rule order. */
  lemma {:induction false} SelectInRuleOrder(n: nat, f: Findings, k: nat)
    requires k <= |RuleOrder|
    ensures InRuleOrder(Select(n, f, k))
  {
    if k > 0 {
      var prev := Select(n, f, k - 1);
      SelectInRuleOrder(n, f, k - 1);
      SelectMembers(n, f, k - 1);
      RuleOrderPositions();
      var next := Select(n, f, k);
      forall i, j | 0 <= i < j < |next|
        ensures Position(next[i]) < Position(next[j])
      {
        assert next[i] == prev[i];
        if j < |prev| {
          assert next[j] == prev[j];
        } else {
          assert next[j] == RuleOrder[k - 1];
          assert prev[i] in prev;
        }
      }
    }
  }

  /** The first `k` checks, read back: one report per requirement, in order. */
  lemma {:induction false} CheckedReports(f: Findings, k: nat)
    requires k <= |Requirements|
    ensures |Checked(f, k).checks| == k
    ensures forall j :: 0 <= j < k ==>
      Checked(f, k).checks[j] == Report(Requirements[j], Passes(f, Requirements[j]))
  {
    if k > 0 {
      CheckedReports(f, k - 1);
    }
  }

  /** The first `k` checks score 20 for each requirement met. */
  lemma {:induction false} CheckedScore(f: Findings, k: nat)
    requires k <= |Requirements|
    ensures Checked(f, k).score == 20 * CountMet(f, k)
  {
    if k > 0 {
      CheckedScore(f, k - 1);
    }
  }

  /** The first `k` checks suggest the remedy of each requirement not met, and nothing else. */
  lemma {:induction false} CheckedSuggestions(n: nat, f: Findings, k: nat)
    requires k <= |Requirements|
    ensures Checked(f, k).suggestions == Select(n, f, k)
    ensures |Checked(f, k).suggestions| == k - CountMet(f, k)
  {
    if k > 0 {
      CheckedSuggestions(n, f, k - 1);
      var r := Requirements[k - 1];
      assert RuleOrder[k - 1] == Remedy(r);
      assert Fires(n, f, Remedy(r)) == !Passes(f, r);
    }
  }

  /** The last four rules, selected one by one after the five remedies. */
  lemma SelectLaterRules(n: nat, f: Findings)
    ensures Select(n, f, |RuleOrder|) ==
      Select(n, f, |Requirements|)
      + (if n < RecommendedLength then [UseTwelveChars] else [])
      + (if f.sequence then [AvoidSequences] else [])
      + (if f.repeat then [AvoidRepeats] else [])
      + (if f.common then [AvoidCommonWords] else [])
  {
    assert Select(n, f, 6) == Select(n, f, |Requirements|) + (if n < RecommendedLength then [UseTwelveChars] else []);
    assert Select(n, f, 7) == Select(n, f, 6) + (if f.sequence then [AvoidSequences] else []);
    assert Select(n, f, 8) == Select(n, f, 7) + (if f.repeat then [AvoidRepeats] else []);
  }

  /** Assembly, read back: the checks come first, then the later steps only add. */
  lemma AssembleSteps(n: nat, f: Findings)
    ensures Assemble(n, f).checks == Checked(f, |Requirements|).checks
    ensures Assemble(n, f).score == Checked(f, |Requirements|).score + LengthBonus(n) - Deductions(f)
    ensures Assemble(n, f).suggestions == Checked(f, |Requirements|).suggestions
      + (if n < RecommendedLength then [UseTwelveChars] else [])
      + (if f.sequence then [AvoidSequences] else [])
      + (if f.repeat then [AvoidRepeats] else [])
      + (if f.common then [AvoidCommonWords] else [])
  {
  }

  /**
   Five checks; a score of 0 to 100 from the checks, 0 to 10 from the
   bonus, less 0 to 40 of penalties; at most nine suggestions.
   */
  lemma AssembleBounds(n: nat, f: Findings)
    ensures |Assemble(n, f).checks| == |Requirements|
    ensures -40 <= Assemble(n, f).score <= 110
    ensures |Assemble(n, f).suggestions| <= 9
  {
    AssembleSteps(n, f);
    CheckedReports(f, |Requirements|);
    CheckedScore(f, |Requirements|);
    CheckedSuggestions(n, f, |Requirements|);
  }

  /** The suggestions are those whose rule fires, in rule order. */
  lemma AssembledSuggestions(n: nat, f: Findings)
    ensures Assemble(n, f).suggestions == Select(n, f, |RuleOrder|)
  {
    AssembleSteps(n, f);
    CheckedSuggestions(n, f, |Requirements|);
    SelectLaterRules(n, f);
  }

  /** Membership of one suggestion: present exactly when its rule fires. */
  lemma AssembledSuggestion(n: nat, f: Findings, g: Suggestion)
    ensures g in Assemble(n, f).suggestions <==> Fires(n, f, g)
  {
    AssembledSuggestions(n, f);
    SelectMembers(n, f, |RuleOrder|);
  }

  // ---------------------------------------------------------------------------
  // The same statements about the analysis of a password
  // ---------------------------------------------------------------------------

  /**
   Exactly five checks; check `k` passes exactly when the password meets
   requirement `k` of length, upper-case, lower-case, digit, special, and
   its message says which way it went.
   */
  lemma ChecksFollowRequirements(s: string)
    ensures |Analyze(s).checks| == |Requirements|
    ensures forall k :: 0 <= k < |Requirements| ==>
      && Analyze(s).checks[k].passed == Meets(s, Requirements[k])
      && Analyze(s).checks[k].message ==
           (if Meets(s, Requirements[k]) then Satisfied(Requirements[k]) else Unsatisfied(Requirements[k]))
  {
    var f := Inspect(s);
    AssembleSteps(|s|, f);
    CheckedReports(f, |Requirements|);
    forall k | 0 <= k < |Requirements|
      ensures Passes(f, Requirements[k]) == Meets(s, Requirements[k])
    {
      InspectMeets(s, Requirements[k]);
    }
  }

  /**
   The score is 20 per met requirement, plus the length bonus, minus 10
   for a sequence, 10 for a repeat and 20 for a common password.
   */
  lemma ScoreFormula(s: string)
    ensures Analyze(s).score ==
      20 * CountMet(Inspect(s), |Requirements|) + LengthBonus(|s|)
      - (if HasSequence(s) then 10 else 0)
      - (if HasRepeat(s) then 10 else 0)
      - (if IsCommon(s) then 20 else 0)
  {
    AssembleSteps(|s|, Inspect(s));
    CheckedScore(Inspect(s), |Requirements|);
  }

  /** The suggestions are exactly those among the nine rules whose rule fires, in rule order. */
  lemma SuggestionsFollowRules(s: string)
    ensures Analyze(s).suggestions == Select(|s|, Inspect(s), |RuleOrder|)
  {
    AssembledSuggestions(|s|, Inspect(s));
  }

  /** The suggestions come in rule order, so none appears twice. */
  lemma SuggestionsInRuleOrder(s: string)
    ensures InRuleOrder(Analyze(s).suggestions)
  {
    AssembledSuggestions(|s|, Inspect(s));
    SelectInRuleOrder(|s|, Inspect(s), |RuleOrder|);
  }

  /** A failed requirement, and only a failed one, brings its remedy. */
  lemma RemedyExactlyWhenUnmet(s: string, r: Requirement)
    ensures Remedy(r) in Analyze(s).suggestions <==> !Meets(s, r)
  {
    AssembledSuggestion(|s|, Inspect(s), Remedy(r));
    InspectMeets(s, r);
  }

  /** The advice to use 12 or more characters is given exactly below 12 characters. */
  lemma LengthAdviceExactlyWhenShort(s: string)
    ensures UseTwelveChars in Analyze(s).suggestions <==> |s| < RecommendedLength
  {
    AssembledSuggestion(|s|, Inspect(s), UseTwelveChars);
  }

  /** Each penalty's advice is given exactly when that penalty applies. */
  lemma PenaltyAdviceExactlyWhenDue(s: string)
    ensures AvoidSequences in Analyze(s).suggestions <==> HasSequence(s)
    ensures AvoidRepeats in Analyze(s).suggestions <==> HasRepeat(s)
    ensures AvoidCommonWords in Analyze(s).suggestions <==> IsCommon(s)
  {
    var f := Inspect(s);
    AssembledSuggestion(|s|, f, AvoidSequences);
    AssembledSuggestion(|s|, f, AvoidRepeats);
    AssembledSuggestion(|s|, f, AvoidCommonWords);
  }

  /** The label of an analysis ranks by how many of the thresholds its score reaches. */
  lemma LabelFollowsScore(s: string)
    ensures forall k :: 0 <= k < |Thresholds| ==>
      (Thresholds[k] <= Analyze(s).score <==> k < Rank(Analyze(s).strength))
  {
  }

  /**
   One suggestion per failed requirement, one for a length under 12, and
   one per penalty that applies.
   */
  lemma SuggestionCount(s: string)
    ensures |Analyze(s).suggestions| ==
      (|Requirements| - CountMet(Inspect(s), |Requirements|))
      + (if |s| < RecommendedLength then 1 else 0)
      + PenaltyCount(Inspect(s))
  {
    AssembleSteps(|s|, Inspect(s));
    CheckedSuggestions(|s|, Inspect(s), |Requirements|);
  }

  /**
   Ten or eleven characters earn the partial bonus of 5 and still get the
   advice to use twelve or more.
   */
  lemma PartialBonusKeepsLengthAdvice(s: string)
    requires PartialBonusLength <= |s| < RecommendedLength
    ensures UseTwelveChars in Analyze(s).suggestions
    ensures Analyze(s).score == 20 * CountMet(Inspect(s), |Requirements|) + 5 - Deductions(Inspect(s))
  {
    LengthAdviceExactlyWhenShort(s);
    ScoreFormula(s);
  }
}
