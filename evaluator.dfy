/** The rule-based answer scorer of `src/services/aiEvaluator.ts`: the
    score, the category-specific feedback, the per-criterion scores and the
    personalised tips. Feedback sentences are modelled as tags. */
module Evaluator {
  import opened Text

  datatype Option<T> = None | Some(value: T)

  /** The fields of an interview question that the scorer reads. `timeLimit`
      is in minutes; `evaluationCriteria` may be absent. */
  datatype Question = Question(category: string, timeLimit: int, evaluationCriteria: Option<seq<string>>)

  /** The branches of the feedback's `switch` on the category string. */
  datatype Kind = Technical | Behavioral | Teamwork | Leadership | Default

  function KindOf(category: string): Kind {
    if category == "technical" then Technical
    else if category == "behavioral" then Behavioral
    else if category == "teamwork" then Teamwork
    else if category == "leadership" then Leadership
    else Default
  }

  datatype Strength =
    | PracticalExamples | DetailedCoverage
    | UsedStar | ShowedReflection
    | Collaborative | HandlesConflict
    | LeadsBeyondAuthority | InfluenceAndMotivation
    | CoherentAnswer
    | Exceptional | Solid | Adequate
  {
    /** The three strengths chosen by the score band alone. */
    predicate IsBand() { Exceptional? || Solid? || Adequate? }

    /** The category branch that lists this strength; none for a band one. */
    function Source(): Option<Kind> {
      match this
      case PracticalExamples | DetailedCoverage => Some(Technical)
      case UsedStar | ShowedReflection => Some(Behavioral)
      case Collaborative | HandlesConflict => Some(Teamwork)
      case LeadsBeyondAuthority | InfluenceAndMotivation => Some(Leadership)
      case CoherentAnswer => Some(Default)
      case Exceptional | Solid | Adequate => None
    }

    /** Position in the order in which the source pushes strengths. */
    function Rank(): int {
      match this
      case PracticalExamples => 0
      case DetailedCoverage => 1
      case UsedStar => 2
      case ShowedReflection => 3
      case Collaborative => 4
      case HandlesConflict => 5
      case LeadsBeyondAuthority => 6
      case InfluenceAndMotivation => 7
      case CoherentAnswer => 8
      case Exceptional => 9
      case Solid => 10
      case Adequate => 11
    }
  }

  datatype Improvement =
    | AddTechnicalDetail | AddCodeExamples
    | ApplyStar | BeSpecificAboutActions | AddMetrics
    | AddCollaborationExamples | MentionTeamContribution
    | DescribeLeadershipTechniques | AddLeadershipResults
    | AddDetailsAndExamples
    | DevelopFurther
  {
    /** The category branch that lists this improvement; none for the
        short-answer advice. */
    function Source(): Option<Kind> {
      match this
      case AddTechnicalDetail | AddCodeExamples => Some(Technical)
      case ApplyStar | BeSpecificAboutActions | AddMetrics => Some(Behavioral)
      case AddCollaborationExamples | MentionTeamContribution => Some(Teamwork)
      case DescribeLeadershipTechniques | AddLeadershipResults => Some(Leadership)
      case AddDetailsAndExamples => Some(Default)
      case DevelopFurther => None
    }

    /** Position in the order in which the source pushes improvements. */
    function Rank(): int {
      match this
      case AddTechnicalDetail => 0
      case AddCodeExamples => 1
      case ApplyStar => 2
      case BeSpecificAboutActions => 3
      case AddMetrics => 4
      case AddCollaborationExamples => 5
      case MentionTeamContribution => 6
      case DescribeLeadershipTechniques => 7
      case AddLeadershipResults => 8
      case AddDetailsAndExamples => 9
      case DevelopFurther => 10
    }
  }

  datatype Suggestion =
    | ExplainStepByStep | StructureWithStar | DescribeTeamRole
    | ArticulateLeadershipStyle | PracticeDetailedAnswers
    | AimForLength
  {
    /** The category branch that lists this suggestion; none for the
        short-answer advice. */
    function Source(): Option<Kind> {
      match this
      case ExplainStepByStep => Some(Technical)
      case StructureWithStar => Some(Behavioral)
      case DescribeTeamRole => Some(Teamwork)
      case ArticulateLeadershipStyle => Some(Leadership)
      case PracticeDetailedAnswers => Some(Default)
      case AimForLength => None
    }

    /** Position in the order in which the source pushes suggestions. */
    function Rank(): int {
      match this
      case ExplainStepByStep => 0
      case StructureWithStar => 1
      case DescribeTeamRole => 2
      case ArticulateLeadershipStyle => 3
      case PracticeDetailedAnswers => 4
      case AimForLength => 5
    }
  }

  /** The two sentences of the prose feedback: which category template,
      which of its three score words, and which closing sentence. */
  datatype Topic = TechnicalTopic | BehavioralTopic | TeamworkTopic | LeadershipTopic | GeneralTopic
  datatype Level = Excellent | Good | Basic
  datatype Closing =
    | ShowsDepth | AddSpecifics
    | StarHelps | ConsiderStar
    | ShowsMaturity | AddTeamExamples
    | LeadsWell | AddLeadershipSituations
    | NoClosing
  datatype Detail = Detail(topic: Topic, level: Level, closing: Closing)

  datatype Feedback = Feedback(
    strengths: seq<Strength>, improvements: seq<Improvement>,
    suggestions: seq<Suggestion>, detail: Detail)

  datatype Evaluation = Evaluation(
    score: int, strengths: seq<Strength>, improvements: seq<Improvement>,
    detail: Detail, criteriaScores: map<string, int>, suggestions: seq<Suggestion>)

  predicate NoDuplicates<T(==)>(s: seq<T>) {
    forall i, j :: 0 <= i < j < |s| ==> s[i] != s[j]
  }

  /** Entries listed in strictly increasing rank, hence none twice. */
  predicate InOrder<T>(s: seq<T>, rank: T -> int) {
    forall i, j :: 0 <= i < j < |s| ==> rank(s[i]) < rank(s[j])
  }

  function StrengthRank(x: Strength): int { x.Rank() }
  function ImprovementRank(x: Improvement): int { x.Rank() }
  function SuggestionRank(x: Suggestion): int { x.Rank() }

  /** Two lists with the same elements, each strictly increasing under the
      same rank, are the same list. */
  lemma {:induction false} SameElementsSameOrder<T>(a: seq<T>, b: seq<T>, rank: T -> int)
    requires InOrder(a, rank) && InOrder(b, rank)
    requires forall x :: x in a <==> x in b
    ensures a == b
    decreases |a|
  {
    if |b| > 0 {
      assert b[0] in b;
    }
    if |a| > 0 {
      assert a[0] in b;
      var i :| 0 <= i < |b| && b[i] == a[0];
      assert b[0] in a;
      var j :| 0 <= j < |a| && a[j] == b[0];
      assert i == 0 && j == 0 by {
        assert rank(b[0]) <= rank(b[i]) && rank(a[0]) <= rank(a[j]);
      }
      forall x ensures x in a[1..] <==> x in b[1..] {
        if x in a[1..] {
          var k :| 1 <= k < |a| && a[k] == x;
          assert rank(a[0]) < rank(a[k]);
          assert x in b;
          var m :| 0 <= m < |b| && b[m] == x;
          assert m != 0;
          assert b[1..][m - 1] == x;
        }
        if x in b[1..] {
          var k :| 1 <= k < |b| && b[k] == x;
          assert rank(b[0]) < rank(b[k]);
          assert x in a;
          var m :| 0 <= m < |a| && a[m] == x;
          assert m != 0;
          assert a[1..][m - 1] == x;
        }
      }
      SameElementsSameOrder(a[1..], b[1..], rank);
      assert a == [a[0]] + a[1..] && b == [b[0]] + b[1..];
    }
  }

  function Max(a: int, b: int): int { if a >= b then a else b }
  function RealMin(a: real, b: real): real { if a <= b then a else b }

  // ---------------------------------------------------------------------
  // Text features

  /** List-like structure: a numbered item, a dash or a bullet. */
  predicate HasStructure(answer: string) {
    Contains(answer, "1.") || Contains(answer, "-") || Contains(answer, "•")
  }

  predicate HasExamples(answer: string) {
    Contains(Lower(answer), "ejemplo") || Contains(Lower(answer), "por ejemplo")
  }

  /** One of the four STAR words in the lower-cased answer. */
  predicate MentionsStar(answer: string) {
    var low := Lower(answer);
    Contains(low, "situación") || Contains(low, "tarea") || Contains(low, "acción") || Contains(low, "resultado")
  }

  predicate UsesStar(q: Question, answer: string) {
    q.category == "behavioral" && MentionsStar(answer)
  }

  /** Time used is strictly between 50 and 90 percent of the limit, the
      division `timeSpent / (timeLimit * 60)` written as a cross-product.
      A zero limit makes the JavaScript ratio infinite or NaN, which earns
      no bonus. */
  predicate EfficientTime(timeSpent: int, timeLimit: int) {
    var t := timeLimit * 60;
    if t > 0 then 50 * t < 100 * timeSpent < 90 * t
    else if t < 0 then 90 * t < 100 * timeSpent < 50 * t
    else false
  }

  // ---------------------------------------------------------------------
  // Score

  function LengthBonus(wordCount: int): int {
    if wordCount > 150 then 15
    else if wordCount > 100 then 10
    else if wordCount > 50 then 5
    else 0
  }

  /** The score before clamping: base 60 plus every bonus earned. */
  function RawScore(q: Question, answer: string, timeSpent: int): int {
    60 + LengthBonus(WordCount(answer))
    + (if HasStructure(answer) then 10 else 0)
    + (if HasExamples(answer) then 10 else 0)
    + (if UsesStar(q, answer) then 15 else 0)
    + (if EfficientTime(timeSpent, q.timeLimit) then 5 else 0)
  }

  function Clamp(x: int): int { Min(100, Max(0, x)) }

  /** The length bonus never decreases as the answer grows. */
  lemma LengthBonusMonotone(a: int, b: int)
    requires a <= b
    ensures 0 <= LengthBonus(a) <= LengthBonus(b) <= 15
  {
  }

  /** The unclamped total lies in [60, 115]; clamping it gives a score in
      [60, 100], and moves exactly the totals above 100 down to 100. */
  lemma RawScoreBounds(q: Question, answer: string, timeSpent: int)
    ensures 60 <= RawScore(q, answer, timeSpent) <= 115
    ensures 60 <= Clamp(RawScore(q, answer, timeSpent)) <= 100
    ensures Clamp(RawScore(q, answer, timeSpent)) == RawScore(q, answer, timeSpent)
            <==> RawScore(q, answer, timeSpent) <= 100
    ensures RawScore(q, answer, timeSpent) > 100 ==> Clamp(RawScore(q, answer, timeSpent)) == 100
  {
  }

  /** The STAR bonus is the only difference the category makes to the
      score: asking the same answer as a behavioural question adds exactly
      15 when a STAR word occurs in it, and nothing otherwise. */
  lemma StarBonusOnlyForBehavioral(q: Question, answer: string, timeSpent: int)
    requires q.category != "behavioral"
    ensures RawScore(q, answer, timeSpent) <= 100
    ensures RawScore(q.(category := "behavioral"), answer, timeSpent)
            == RawScore(q, answer, timeSpent) + (if MentionsStar(answer) then 15 else 0)
  {
  }

  /** "por ejemplo" contains "ejemplo", so the second test of the examples
      feature never changes its outcome. */
  lemma HasExamplesIsEjemplo(answer: string)
    ensures HasExamples(answer) <==> Contains(Lower(answer), "ejemplo")
  {
    if Contains(Lower(answer), "por ejemplo") {
      assert "por ejemplo" == "por " + "ejemplo";
      ContainsSuffix(Lower(answer), "por ", "ejemplo");
    }
  }

  /** The keywords the lower-cased tests look for are already lower case,
      so those tests find them in any capitalisation (`LowerKeepsContains`). */
  lemma KeywordsAreLowerCase()
    ensures Lower("ejemplo") == "ejemplo" && Lower("por ejemplo") == "por ejemplo"
    ensures Lower("situación") == "situación" && Lower("tarea") == "tarea"
    ensures Lower("acción") == "acción" && Lower("resultado") == "resultado"
  {
    LowerFixesLowerCase("ejemplo");
    LowerFixesLowerCase("por ejemplo");
    LowerFixesLowerCase("situación");
    LowerFixesLowerCase("tarea");
    LowerFixesLowerCase("acción");
    LowerFixesLowerCase("resultado");
  }

  /** The examples and STAR features, and a criterion's mention, depend on
      the answer only up to capitalisation. */
  lemma LowerCasedFeaturesIgnoreCase(a: string, b: string, criterion: string)
    requires Lower(a) == Lower(b)
    ensures HasExamples(a) <==> HasExamples(b)
    ensures MentionsStar(a) <==> MentionsStar(b)
    ensures BehavioralStar(a) <==> BehavioralStar(b)
    ensures MentionsCriterion(a, criterion) <==> MentionsCriterion(b, criterion)
  {
  }

  /** A capitalised "Ejemplo" counts as an example for the score, but not
      for the technical branch's strength, which tests the raw answer. */
  lemma TechnicalExamplesAreCaseSensitive()
    ensures HasExamples("Ejemplo")
    ensures !TechnicalExamples("Ejemplo")
  {
    KeywordsAreLowerCase();
    assert Lower("Ejemplo") == "ejemplo";
    TooShortToContain("jemplo", "ejemplo");
    assert "Ejemplo"[1..] == "jemplo";
    assert "Ejemplo"[0] != "ejemplo"[0];
    TooShortToContain("emplo", "código");
    assert "jemplo"[1..] == "emplo";
    assert "jemplo"[0] != "código"[0] && "Ejemplo"[0] != "código"[0];
  }

  /** `Math.min(100, timeSpent / (timeLimit * 60) * 100)` in exact
      arithmetic, for a non-zero limit. */
  function TimeEfficiency(timeSpent: int, timeLimit: int): real
    requires timeLimit != 0
  {
    RealMin(100.0, (timeSpent as real) / ((timeLimit * 60) as real) * 100.0)
  }

  /** The cross-multiplied test agrees with the percentage test on the
      real quotient: the time bonus is earned exactly when the time used is
      strictly between 50 and 90 percent of the limit. */
  lemma TimeBonusMatchesRatio(timeSpent: int, timeLimit: int)
    ensures EfficientTime(timeSpent, timeLimit)
            <==> timeLimit != 0 && 50.0 < TimeEfficiency(timeSpent, timeLimit) < 90.0
  {
    if timeLimit != 0 {
      var ti := timeLimit * 60;
      var ts, t := timeSpent as real, ti as real;
      PercentCompare(ts, t, 50.0);
      PercentCompare(ts, t, 90.0);
      assert (50 * ti) as real == 50.0 * t && (90 * ti) as real == 90.0 * t;
      assert (100 * timeSpent) as real == 100.0 * ts;
    }
  }

  /** `p < ts / t * 100` is the cross-multiplied comparison, turned round
      for a negative `t`. */
  lemma PercentCompare(ts: real, t: real, p: real)
    requires t != 0.0
    ensures t > 0.0 ==> (p < ts / t * 100.0 <==> p * t < 100.0 * ts)
    ensures t > 0.0 ==> (ts / t * 100.0 < p <==> 100.0 * ts < p * t)
    ensures t < 0.0 ==> (p < ts / t * 100.0 <==> 100.0 * ts < p * t)
    ensures t < 0.0 ==> (ts / t * 100.0 < p <==> p * t < 100.0 * ts)
  {
    var x := ts / t * 100.0;
    assert x * t == 100.0 * ts;
    ScaleCompare(x, p, t);
  }

  /** Multiplying both sides of a comparison by a non-zero factor keeps it
      when the factor is positive and turns it round when it is negative. */
  lemma ScaleCompare(x: real, y: real, t: real)
    requires t != 0.0
    ensures t > 0.0 ==> (y < x <==> y * t < x * t) && (x < y <==> x * t < y * t)
    ensures t < 0.0 ==> (y < x <==> x * t < y * t) && (x < y <==> y * t < x * t)
  {
    assert x * t - y * t == (x - y) * t;
  }

  /** The answer's score and feedback: the score from `ScoreAnswer`, the
      feedback and the criteria scores built from it. */
  method EvaluateAnswer(q: Question, answer: string, timeSpent: int, draws: seq<real>)
    returns (e: Evaluation)
    requires ValidDraws(CriteriaOf(q), draws)
    ensures e.score == Clamp(RawScore(q, answer, timeSpent))
    ensures 60 <= e.score <= 100
    ensures FeedbackRules(q.category, answer, e.score,
                          Feedback(e.strengths, e.improvements, e.suggestions, e.detail))
    ensures CriteriaRules(CriteriaOf(q), answer, draws, e.criteriaScores)
  {
    var finalScore := ScoreAnswer(q, answer, timeSpent);
    var feedback := CategoryFeedback(q.category, answer, finalScore);
    var criteriaScores := CriteriaScores(CriteriaOf(q), answer, draws);
    e := Evaluation(finalScore, feedback.strengths, feedback.improvements,
                    feedback.detail, criteriaScores, feedback.suggestions);
    assert Feedback(e.strengths, e.improvements, e.suggestions, e.detail) == feedback;
  }

  /** The score, built step by step from a base of 60 and clamped. */
  method ScoreAnswer(q: Question, answer: string, timeSpent: int) returns (finalScore: int)
    ensures finalScore == Clamp(RawScore(q, answer, timeSpent))
    ensures 60 <= finalScore <= 100
  {
    var wordCount := WordCount(answer);
    var hasStructure := HasStructure(answer);
    var hasExamples := HasExamples(answer);
    var usesStar := q.category == "behavioral" && MentionsStar(answer);

    var baseScore := 60;
    if wordCount > 150 {
      baseScore := baseScore + 15;
    } else if wordCount > 100 {
      baseScore := baseScore + 10;
    } else if wordCount > 50 {
      baseScore := baseScore + 5;
    }
    ghost var earned := 60 + LengthBonus(wordCount);
    assert baseScore == earned;
    if hasStructure {
      baseScore := baseScore + 10;
    }
    earned := earned + if hasStructure then 10 else 0;
    assert baseScore == earned;
    if hasExamples {
      baseScore := baseScore + 10;
    }
    earned := earned + if hasExamples then 10 else 0;
    assert baseScore == earned;
    if usesStar {
      baseScore := baseScore + 15;
    }
    earned := earned + if usesStar then 15 else 0;
    assert baseScore == earned;
    if EfficientTime(timeSpent, q.timeLimit) {
      baseScore := baseScore + 5;
    }
    earned := earned + if EfficientTime(timeSpent, q.timeLimit) then 5 else 0;
    assert baseScore == earned == RawScore(q, answer, timeSpent);
    finalScore := Min(100, Max(0, baseScore));
  }

  // ---------------------------------------------------------------------
  // Category-specific feedback

  predicate TechnicalExamples(answer: string) { Contains(answer, "ejemplo") || Contains(answer, "código") }
  /** The behavioural branch looks for only two STAR words, lower-cased. */
  predicate BehavioralStar(answer: string) { Contains(Lower(answer), "situación") || Contains(Lower(answer), "tarea") }
  predicate ShowsLearning(answer: string) { Contains(answer, "aprendí") || Contains(answer, "resultado") }
  predicate MentionsCollaboration(answer: string) { Contains(answer, "colabor") || Contains(answer, "equipo") }
  predicate MentionsConflict(answer: string) { Contains(answer, "conflicto") || Contains(answer, "desacuerdo") }
  predicate MentionsLeading(answer: string) { Contains(answer, "lider") || Contains(answer, "guiar") }
  predicate MentionsInfluence(answer: string) { Contains(answer, "influencia") || Contains(answer, "motivar") }

  /** The strengths the category branch lists: only the branch's own, each
      exactly when its test holds, in the order the source pushes them. */
  predicate CategoryStrengthRules(category: string, answer: string, s: seq<Strength>) {
    var kind := KindOf(category);
    && (forall i :: 0 <= i < |s| ==> s[i].Source() == Some(kind))
    && (kind == Technical ==>
          && (PracticalExamples in s <==> TechnicalExamples(answer))
          && (DetailedCoverage in s <==> WordCount(answer) > 100))
    && (kind == Behavioral ==>
          && (UsedStar in s <==> BehavioralStar(answer))
          && (ShowedReflection in s <==> ShowsLearning(answer)))
    && (kind == Teamwork ==>
          && (Collaborative in s <==> MentionsCollaboration(answer))
          && (HandlesConflict in s <==> MentionsConflict(answer)))
    && (kind == Leadership ==>
          && (LeadsBeyondAuthority in s <==> MentionsLeading(answer))
          && (InfluenceAndMotivation in s <==> MentionsInfluence(answer)))
    && (kind == Default ==> CoherentAnswer in s)
    && InOrder(s, StrengthRank)
  }

  /** The improvements the category branch lists: only the branch's own;
      its pair (one for the default branch) exactly when the score is below
      70, and the STAR advice exactly when a behavioural answer lacks STAR
      words; in the order the source pushes them. */
  predicate CategoryImprovementRules(category: string, answer: string, score: int, s: seq<Improvement>) {
    var kind := KindOf(category);
    && (forall i :: 0 <= i < |s| ==> s[i].Source() == Some(kind))
    && (kind == Technical ==>
          && (AddTechnicalDetail in s <==> score < 70)
          && (AddCodeExamples in s <==> score < 70))
    && (kind == Behavioral ==>
          && (ApplyStar in s <==> !BehavioralStar(answer))
          && (BeSpecificAboutActions in s <==> score < 70)
          && (AddMetrics in s <==> score < 70))
    && (kind == Teamwork ==>
          && (AddCollaborationExamples in s <==> score < 70)
          && (MentionTeamContribution in s <==> score < 70))
    && (kind == Leadership ==>
          && (DescribeLeadershipTechniques in s <==> score < 70)
          && (AddLeadershipResults in s <==> score < 70))
    && (kind == Default ==> (AddDetailsAndExamples in s <==> score < 70))
    && InOrder(s, ImprovementRank)
  }

  /** The suggestions the category branch lists, in the same shape. */
  predicate CategorySuggestionRules(category: string, answer: string, score: int, s: seq<Suggestion>) {
    var kind := KindOf(category);
    && (forall i :: 0 <= i < |s| ==> s[i].Source() == Some(kind))
    && (kind == Technical ==> (ExplainStepByStep in s <==> score < 70))
    && (kind == Behavioral ==> (StructureWithStar in s <==> !BehavioralStar(answer)))
    && (kind == Teamwork ==> (DescribeTeamRole in s <==> score < 70))
    && (kind == Leadership ==> (ArticulateLeadershipStyle in s <==> score < 70))
    && (kind == Default ==> (PracticeDetailedAnswers in s <==> score < 70))
    && InOrder(s, SuggestionRank)
  }

  /** The strength chosen by the score band alone. */
  function BandStrength(score: int): seq<Strength> {
    if score >= 90 then [Exceptional]
    else if score >= 80 then [Solid]
    else if score >= 70 then [Adequate]
    else []
  }

  /** The category's strengths, followed by the score-band strength. */
  predicate StrengthRules(category: string, answer: string, score: int, s: seq<Strength>) {
    var k := |s| - |BandStrength(score)|;
    && 0 <= k
    && CategoryStrengthRules(category, answer, s[..k])
    && s[k..] == BandStrength(score)
  }

  /** The category's improvements, followed by the short-answer advice when
      the answer has fewer than 50 words. */
  predicate ImprovementRules(category: string, answer: string, score: int, s: seq<Improvement>) {
    var k := |s| - (if WordCount(answer) < 50 then 1 else 0);
    && 0 <= k
    && CategoryImprovementRules(category, answer, score, s[..k])
    && s[k..] == (if WordCount(answer) < 50 then [DevelopFurther] else [])
  }

  predicate SuggestionRules(category: string, answer: string, score: int, s: seq<Suggestion>) {
    var k := |s| - (if WordCount(answer) < 50 then 1 else 0);
    && 0 <= k
    && CategorySuggestionRules(category, answer, score, s[..k])
    && s[k..] == (if WordCount(answer) < 50 then [AimForLength] else [])
  }

  function LevelOf(score: int): Level {
    if score > 80 then Excellent else if score > 60 then Good else Basic
  }

  /** The prose template: the category's, with "excellent" above 80, "good"
      above 60 and "basic" otherwise, and the category's closing sentence. */
  predicate DetailRules(category: string, answer: string, score: int, d: Detail) {
    && d.level == LevelOf(score)
    && (KindOf(category) == Technical ==>
          d.topic == TechnicalTopic && d.closing == (if score > 80 then ShowsDepth else AddSpecifics))
    && (KindOf(category) == Behavioral ==>
          d.topic == BehavioralTopic && d.closing == (if BehavioralStar(answer) then StarHelps else ConsiderStar))
    && (KindOf(category) == Teamwork ==>
          d.topic == TeamworkTopic && d.closing == (if score > 70 then ShowsMaturity else AddTeamExamples))
    && (KindOf(category) == Leadership ==>
          d.topic == LeadershipTopic && d.closing == (if score > 70 then LeadsWell else AddLeadershipSituations))
    && (KindOf(category) == Default ==> d.topic == GeneralTopic && d.closing == NoClosing)
  }

  predicate FeedbackRules(category: string, answer: string, score: int, fb: Feedback) {
    && StrengthRules(category, answer, score, fb.strengths)
    && ImprovementRules(category, answer, score, fb.improvements)
    && SuggestionRules(category, answer, score, fb.suggestions)
    && DetailRules(category, answer, score, fb.detail)
  }

  /** Exactly one score-band strength is listed, last, when the score is at
      least 70 (the "exceptional" one from 90 up) and none below 70; no
      strength is listed twice. */
  lemma BandStrengthFacts(category: string, answer: string, score: int, s: seq<Strength>)
    requires StrengthRules(category, answer, score, s)
    ensures score >= 70 <==> |s| > 0 && s[|s| - 1].IsBand()
    ensures forall i :: 0 <= i < |s| - 1 ==> !s[i].IsBand()
    ensures Exceptional in s <==> score >= 90
    ensures Solid in s <==> 80 <= score < 90
    ensures Adequate in s <==> 70 <= score < 80
    ensures NoDuplicates(s)
  {
    var k := |s| - |BandStrength(score)|;
    var c := s[..k];
    assert s == c + BandStrength(score);
    forall i | 0 <= i < k ensures !s[i].IsBand() {
      assert s[i] == c[i] && c[i].Source().Some?;
    }
  }

  /** Exactly one improvement and one suggestion, the short-answer advice,
      are appended after the category's entries when the answer has fewer
      than 50 words, and they appear nowhere else. */
  lemma ShortAnswerAdviceFacts(category: string, answer: string, score: int,
                               imp: seq<Improvement>, sug: seq<Suggestion>)
    requires ImprovementRules(category, answer, score, imp)
    requires SuggestionRules(category, answer, score, sug)
    ensures WordCount(answer) < 50 <==> |imp| > 0 && imp[|imp| - 1] == DevelopFurther
    ensures WordCount(answer) < 50 <==> |sug| > 0 && sug[|sug| - 1] == AimForLength
    ensures forall i :: 0 <= i < |imp| - 1 ==> imp[i] != DevelopFurther
    ensures forall i :: 0 <= i < |sug| - 1 ==> sug[i] != AimForLength
  {
    var short := WordCount(answer) < 50;
    var ki := |imp| - (if short then 1 else 0);
    var ks := |sug| - (if short then 1 else 0);
    forall i | 0 <= i < ki ensures imp[i] != DevelopFurther {
      assert imp[i] == imp[..ki][i] && imp[..ki][i].Source().Some?;
    }
    forall i | 0 <= i < ks ensures sug[i] != AimForLength {
      assert sug[i] == sug[..ks][i] && sug[..ks][i].Source().Some?;
    }
  }

  /** Whether the source lists a strength: the decision table of the
      `switch` branches and the score bands. */
  predicate StrengthListed(category: string, answer: string, score: int, x: Strength) {
    var kind := KindOf(category);
    match x
    case PracticalExamples => kind == Technical && TechnicalExamples(answer)
    case DetailedCoverage => kind == Technical && WordCount(answer) > 100
    case UsedStar => kind == Behavioral && BehavioralStar(answer)
    case ShowedReflection => kind == Behavioral && ShowsLearning(answer)
    case Collaborative => kind == Teamwork && MentionsCollaboration(answer)
    case HandlesConflict => kind == Teamwork && MentionsConflict(answer)
    case LeadsBeyondAuthority => kind == Leadership && MentionsLeading(answer)
    case InfluenceAndMotivation => kind == Leadership && MentionsInfluence(answer)
    case CoherentAnswer => kind == Default
    case Exceptional => score >= 90
    case Solid => 80 <= score < 90
    case Adequate => 70 <= score < 80
  }

  /** Whether the source lists an improvement. */
  predicate ImprovementListed(category: string, answer: string, score: int, x: Improvement) {
    var kind := KindOf(category);
    match x
    case AddTechnicalDetail | AddCodeExamples => kind == Technical && score < 70
    case ApplyStar => kind == Behavioral && !BehavioralStar(answer)
    case BeSpecificAboutActions | AddMetrics => kind == Behavioral && score < 70
    case AddCollaborationExamples | MentionTeamContribution => kind == Teamwork && score < 70
    case DescribeLeadershipTechniques | AddLeadershipResults => kind == Leadership && score < 70
    case AddDetailsAndExamples => kind == Default && score < 70
    case DevelopFurther => WordCount(answer) < 50
  }

  /** Whether the source lists a suggestion. */
  predicate SuggestionListed(category: string, answer: string, score: int, x: Suggestion) {
    var kind := KindOf(category);
    match x
    case ExplainStepByStep => kind == Technical && score < 70
    case StructureWithStar => kind == Behavioral && !BehavioralStar(answer)
    case DescribeTeamRole => kind == Teamwork && score < 70
    case ArticulateLeadershipStyle => kind == Leadership && score < 70
    case PracticeDetailedAnswers => kind == Default && score < 70
    case AimForLength => WordCount(answer) < 50
  }

  /** The strengths are exactly the listed ones. */
  lemma StrengthsAreListed(category: string, answer: string, score: int, s: seq<Strength>)
    requires StrengthRules(category, answer, score, s)
    ensures forall x :: x in s <==> StrengthListed(category, answer, score, x)
  {
    forall x ensures x in s <==> StrengthListed(category, answer, score, x) {
      StrengthListedIff(category, answer, score, s, x);
    }
  }

  /** Whether one strength is listed. */
  lemma StrengthListedIff(category: string, answer: string, score: int, s: seq<Strength>, x: Strength)
    requires StrengthRules(category, answer, score, s)
    ensures x in s <==> StrengthListed(category, answer, score, x)
  {
    var k := |s| - |BandStrength(score)|;
    var c := s[..k];
    assert s == c + BandStrength(score);
    if x.Source() == Some(KindOf(category)) {
      assert x in c <==> StrengthListed(category, answer, score, x) by {
        match KindOf(category)
        case Technical =>
        case Behavioral =>
        case Teamwork =>
        case Leadership =>
        case Default =>
      }
      assert x !in BandStrength(score);
      assert x in s <==> x in c;
    } else if x.Source().Some? {
      assert x !in c && x !in BandStrength(score);
    } else {
      assert forall i :: 0 <= i < |c| ==> c[i].Source().Some? && c[i] != x;
    }
  }

  /** The strengths are listed in push order. */
  lemma StrengthsListedInOrder(category: string, answer: string, score: int, s: seq<Strength>)
    requires StrengthRules(category, answer, score, s)
    ensures InOrder(s, StrengthRank)
  {
    var k := |s| - |BandStrength(score)|;
    var c := s[..k];
    assert s == c + BandStrength(score);
    forall i, j | 0 <= i < j < |s| ensures s[i].Rank() < s[j].Rank() {
      if j < k {
        assert s[i] == c[i] && s[j] == c[j];
      } else if i < k {
        assert s[i] == c[i] && c[i].Source().Some?;
      }
    }
  }

  /** The improvements are exactly the listed ones. */
  lemma ImprovementsAreListed(category: string, answer: string, score: int, s: seq<Improvement>)
    requires ImprovementRules(category, answer, score, s)
    ensures forall x :: x in s <==> ImprovementListed(category, answer, score, x)
  {
    forall x ensures x in s <==> ImprovementListed(category, answer, score, x) {
      ImprovementListedIff(category, answer, score, s, x);
    }
  }

  /** Whether one improvement is listed. */
  lemma ImprovementListedIff(category: string, answer: string, score: int, s: seq<Improvement>, x: Improvement)
    requires ImprovementRules(category, answer, score, s)
    ensures x in s <==> ImprovementListed(category, answer, score, x)
  {
    var tail := if WordCount(answer) < 50 then [DevelopFurther] else [];
    var k := |s| - |tail|;
    var c := s[..k];
    assert s == c + tail;
    if x.Source() == Some(KindOf(category)) {
      assert x in c <==> ImprovementListed(category, answer, score, x) by {
        match KindOf(category)
        case Technical =>
        case Behavioral =>
        case Teamwork =>
        case Leadership =>
        case Default =>
      }
      assert x !in tail;
      assert x in s <==> x in c;
    } else if x.Source().Some? {
      assert x !in c && x !in tail;
    } else {
      assert forall i :: 0 <= i < |c| ==> c[i].Source().Some? && c[i] != x;
    }
  }

  /** The improvements are listed in push order. */
  lemma ImprovementsListedInOrder(category: string, answer: string, score: int, s: seq<Improvement>)
    requires ImprovementRules(category, answer, score, s)
    ensures InOrder(s, ImprovementRank)
  {
    var tail := if WordCount(answer) < 50 then [DevelopFurther] else [];
    var k := |s| - |tail|;
    var c := s[..k];
    assert s == c + tail;
    forall i, j | 0 <= i < j < |s| ensures s[i].Rank() < s[j].Rank() {
      if j < k {
        assert s[i] == c[i] && s[j] == c[j];
      } else if i < k {
        assert s[i] == c[i] && c[i].Source().Some?;
      }
    }
  }

  /** The suggestions are exactly the listed ones. */
  lemma SuggestionsAreListed(category: string, answer: string, score: int, s: seq<Suggestion>)
    requires SuggestionRules(category, answer, score, s)
    ensures forall x :: x in s <==> SuggestionListed(category, answer, score, x)
  {
    forall x ensures x in s <==> SuggestionListed(category, answer, score, x) {
      SuggestionListedIff(category, answer, score, s, x);
    }
  }

  /** Whether one suggestion is listed. */
  lemma SuggestionListedIff(category: string, answer: string, score: int, s: seq<Suggestion>, x: Suggestion)
    requires SuggestionRules(category, answer, score, s)
    ensures x in s <==> SuggestionListed(category, answer, score, x)
  {
    var tail := if WordCount(answer) < 50 then [AimForLength] else [];
    var k := |s| - |tail|;
    var c := s[..k];
    assert s == c + tail;
    if x.Source() == Some(KindOf(category)) {
      assert x in c <==> SuggestionListed(category, answer, score, x) by {
        match KindOf(category)
        case Technical =>
        case Behavioral =>
        case Teamwork =>
        case Leadership =>
        case Default =>
      }
      assert x !in tail;
      assert x in s <==> x in c;
    } else if x.Source().Some? {
      assert x !in c && x !in tail;
    } else {
      assert forall i :: 0 <= i < |c| ==> c[i].Source().Some? && c[i] != x;
    }
  }

  /** The suggestions are listed in push order. */
  lemma SuggestionsListedInOrder(category: string, answer: string, score: int, s: seq<Suggestion>)
    requires SuggestionRules(category, answer, score, s)
    ensures InOrder(s, SuggestionRank)
  {
    var tail := if WordCount(answer) < 50 then [AimForLength] else [];
    var k := |s| - |tail|;
    var c := s[..k];
    assert s == c + tail;
    forall i, j | 0 <= i < j < |s| ensures s[i].Rank() < s[j].Rank() {
      if j < k {
        assert s[i] == c[i] && s[j] == c[j];
      } else if i < k {
        assert s[i] == c[i] && c[i].Source().Some?;
      }
    }
  }

  /** The feedback rules leave no freedom: two feedbacks that both meet
      them for the same category, answer and score are equal, entries and
      order alike. */
  lemma FeedbackDetermined(category: string, answer: string, score: int, f: Feedback, g: Feedback)
    requires FeedbackRules(category, answer, score, f)
    requires FeedbackRules(category, answer, score, g)
    ensures f == g
  {
    StrengthsAreListed(category, answer, score, f.strengths);
    StrengthsAreListed(category, answer, score, g.strengths);
    StrengthsListedInOrder(category, answer, score, f.strengths);
    StrengthsListedInOrder(category, answer, score, g.strengths);
    SameElementsSameOrder(f.strengths, g.strengths, StrengthRank);
    ImprovementsAreListed(category, answer, score, f.improvements);
    ImprovementsAreListed(category, answer, score, g.improvements);
    ImprovementsListedInOrder(category, answer, score, f.improvements);
    ImprovementsListedInOrder(category, answer, score, g.improvements);
    SameElementsSameOrder(f.improvements, g.improvements, ImprovementRank);
    SuggestionsAreListed(category, answer, score, f.suggestions);
    SuggestionsAreListed(category, answer, score, g.suggestions);
    SuggestionsListedInOrder(category, answer, score, f.suggestions);
    SuggestionsListedInOrder(category, answer, score, g.suggestions);
    SameElementsSameOrder(f.suggestions, g.suggestions, SuggestionRank);
  }

  /** The entries one category branch of the `switch` pushes. */
  predicate BranchRules(category: string, answer: string, score: int, strengths: seq<Strength>,
                        improvements: seq<Improvement>, suggestions: seq<Suggestion>, detail: Detail) {
    && CategoryStrengthRules(category, answer, strengths)
    && CategoryImprovementRules(category, answer, score, improvements)
    && CategorySuggestionRules(category, answer, score, suggestions)
    && DetailRules(category, answer, score, detail)
  }

  /** Pushing the band strength onto the branch's strengths meets the
      strength rules. */
  lemma BandStrengthAppended(category: string, answer: string, score: int, s: seq<Strength>, s': seq<Strength>)
    requires CategoryStrengthRules(category, answer, s)
    requires s' == if score >= 90 then s + [Exceptional]
                   else if score >= 80 then s + [Solid]
                   else if score >= 70 then s + [Adequate]
                   else s
    ensures StrengthRules(category, answer, score, s')
  {
    assert s'[..|s|] == s;
  }

  /** Pushing the short-answer advice onto the branch's improvements and
      suggestions meets their rules. */
  lemma ShortAnswerAdviceAppended(category: string, answer: string, score: int,
                                  imp: seq<Improvement>, sug: seq<Suggestion>,
                                  imp': seq<Improvement>, sug': seq<Suggestion>)
    requires CategoryImprovementRules(category, answer, score, imp)
    requires CategorySuggestionRules(category, answer, score, sug)
    requires imp' == if WordCount(answer) < 50 then imp + [DevelopFurther] else imp
    requires sug' == if WordCount(answer) < 50 then sug + [AimForLength] else sug
    ensures ImprovementRules(category, answer, score, imp')
    ensures SuggestionRules(category, answer, score, sug')
  {
    if WordCount(answer) < 50 {
      assert imp'[..|imp|] == imp && imp'[|imp|..] == [DevelopFurther];
      assert sug'[..|sug|] == sug && sug'[|sug|..] == [AimForLength];
    } else {
      assert imp'[..|imp|] == imp && sug'[..|sug|] == sug;
    }
  }

  /** Runs the category's branch of the `switch`, then pushes the score-band
      strength and the short-answer advice. */
  method CategoryFeedback(category: string, answer: string, score: int) returns (fb: Feedback)
    ensures FeedbackRules(category, answer, score, fb)
  {
    var wordCount := WordCount(answer);
    var strengths: seq<Strength>, improvements: seq<Improvement>, suggestions: seq<Suggestion>, detail: Detail;
    if category == "technical" {
      strengths, improvements, suggestions, detail := TechnicalBranch(category, answer, score);
    } else if category == "behavioral" {
      strengths, improvements, suggestions, detail := BehavioralBranch(category, answer, score);
    } else if category == "teamwork" {
      strengths, improvements, suggestions, detail := TeamworkBranch(category, answer, score);
    } else if category == "leadership" {
      strengths, improvements, suggestions, detail := LeadershipBranch(category, answer, score);
    } else {
      strengths, improvements, suggestions, detail := DefaultBranch(category, answer, score);
    }
    ghost var categoryStrengths, categoryImprovements, categorySuggestions := strengths, improvements, suggestions;

    if score >= 90 {
      strengths := strengths + [Exceptional];
    } else if score >= 80 {
      strengths := strengths + [Solid];
    } else if score >= 70 {
      strengths := strengths + [Adequate];
    }
    BandStrengthAppended(category, answer, score, categoryStrengths, strengths);

    if wordCount < 50 {
      improvements := improvements + [DevelopFurther];
      suggestions := suggestions + [AimForLength];
    }
    ShortAnswerAdviceAppended(category, answer, score, categoryImprovements, categorySuggestions,
                              improvements, suggestions);

    fb := Feedback(strengths, improvements, suggestions, detail);
  }

  method TechnicalBranch(category: string, answer: string, score: int)
    returns (strengths: seq<Strength>, improvements: seq<Improvement>, suggestions: seq<Suggestion>, detail: Detail)
    requires KindOf(category) == Technical
    ensures BranchRules(category, answer, score, strengths, improvements, suggestions, detail)
  {
    strengths, improvements, suggestions := [], [], [];
    if TechnicalExamples(answer) {
      strengths := strengths + [PracticalExamples];
    }
    if WordCount(answer) > 100 {
      strengths := strengths + [DetailedCoverage];
    }
    if score < 70 {
      improvements := improvements + [AddTechnicalDetail, AddCodeExamples];
      suggestions := suggestions + [ExplainStepByStep];
    }
    detail := Detail(TechnicalTopic, LevelOf(score), if score > 80 then ShowsDepth else AddSpecifics);
  }

  method BehavioralBranch(category: string, answer: string, score: int)
    returns (strengths: seq<Strength>, improvements: seq<Improvement>, suggestions: seq<Suggestion>, detail: Detail)
    requires KindOf(category) == Behavioral
    ensures BranchRules(category, answer, score, strengths, improvements, suggestions, detail)
  {
    strengths, improvements, suggestions := [], [], [];
    var hasStar := BehavioralStar(answer);
    if hasStar {
      strengths := strengths + [UsedStar];
    }
    if ShowsLearning(answer) {
      strengths := strengths + [ShowedReflection];
    }
    if !hasStar {
      improvements := improvements + [ApplyStar];
      suggestions := suggestions + [StructureWithStar];
    }
    if score < 70 {
      improvements := improvements + [BeSpecificAboutActions, AddMetrics];
    }
    detail := Detail(BehavioralTopic, LevelOf(score), if hasStar then StarHelps else ConsiderStar);
  }

  method TeamworkBranch(category: string, answer: string, score: int)
    returns (strengths: seq<Strength>, improvements: seq<Improvement>, suggestions: seq<Suggestion>, detail: Detail)
    requires KindOf(category) == Teamwork
    ensures BranchRules(category, answer, score, strengths, improvements, suggestions, detail)
  {
    strengths, improvements, suggestions := [], [], [];
    if MentionsCollaboration(answer) {
      strengths := strengths + [Collaborative];
    }
    if MentionsConflict(answer) {
      strengths := strengths + [HandlesConflict];
    }
    if score < 70 {
      improvements := improvements + [AddCollaborationExamples, MentionTeamContribution];
      suggestions := suggestions + [DescribeTeamRole];
    }
    detail := Detail(TeamworkTopic, LevelOf(score), if score > 70 then ShowsMaturity else AddTeamExamples);
  }

  method LeadershipBranch(category: string, answer: string, score: int)
    returns (strengths: seq<Strength>, improvements: seq<Improvement>, suggestions: seq<Suggestion>, detail: Detail)
    requires KindOf(category) == Leadership
    ensures BranchRules(category, answer, score, strengths, improvements, suggestions, detail)
  {
    strengths, improvements, suggestions := [], [], [];
    if MentionsLeading(answer) {
      strengths := strengths + [LeadsBeyondAuthority];
    }
    if MentionsInfluence(answer) {
      strengths := strengths + [InfluenceAndMotivation];
    }
    if score < 70 {
      improvements := improvements + [DescribeLeadershipTechniques, AddLeadershipResults];
      suggestions := suggestions + [ArticulateLeadershipStyle];
    }
    detail := Detail(LeadershipTopic, LevelOf(score), if score > 70 then LeadsWell else AddLeadershipSituations);
  }

  /** The `default` branch, for every other category string. */
  method DefaultBranch(category: string, answer: string, score: int)
    returns (strengths: seq<Strength>, improvements: seq<Improvement>, suggestions: seq<Suggestion>, detail: Detail)
    requires KindOf(category) == Default
    ensures BranchRules(category, answer, score, strengths, improvements, suggestions, detail)
  {
    strengths, improvements, suggestions := [CoherentAnswer], [], [];
    if score < 70 {
      improvements := improvements + [AddDetailsAndExamples];
      suggestions := suggestions + [PracticeDetailedAnswers];
    }
    detail := Detail(GeneralTopic, LevelOf(score), NoClosing);
  }

  // ---------------------------------------------------------------------
  // Criteria scores

  function CriteriaOf(q: Question): seq<string> {
    match q.evaluationCriteria
    case None => []
    case Some(criteria) => criteria
  }

  /** One random draw in [0, 1) per criterion, standing for `Math.random()`. */
  predicate ValidDraws(criteria: seq<string>, draws: seq<real>) {
    |draws| == |criteria| && forall i :: 0 <= i < |draws| ==> 0.0 <= draws[i] < 1.0
  }

  /** The lower-cased answer includes the criterion's first space-separated
      word, lower-cased. */
  predicate MentionsCriterion(answer: string, criterion: string) {
    Contains(Lower(answer), FirstPiece(Lower(criterion), ' '))
  }

  /** `Math.round`: the nearest integer, halves rounded up. */
  function Round(x: real): (n: int)
    ensures n as real - 0.5 <= x < n as real + 0.5
  {
    (x + 0.5).Floor
  }

  /** `Math.round(Math.min(100, 60 + r * 30 (+ 10)))`. */
  function CriterionScore(answer: string, criterion: string, r: real): (v: int)
    requires 0.0 <= r < 1.0
    ensures 60 <= v <= 100
    ensures MentionsCriterion(answer, criterion) ==> 70 <= v
    ensures !MentionsCriterion(answer, criterion) ==> v <= 90
  {
    var score := 60.0 + r * 30.0 + (if MentionsCriterion(answer, criterion) then 10.0 else 0.0);
    Round(RealMin(100.0, score))
  }

  /** No later criterion in `criteria[..n]` has the same label as the one at `k`. */
  predicate LastBefore(criteria: seq<string>, k: nat, n: nat)
    requires k < n <= |criteria|
  {
    forall j :: k < j < n ==> criteria[j] != criteria[k]
  }

  /** The map has exactly the criterion labels as keys, every value in
      [60, 100], and each label holds the score of its last occurrence
      (a repeated label is overwritten). */
  predicate CriteriaRules(criteria: seq<string>, answer: string, draws: seq<real>, m: map<string, int>)
    requires ValidDraws(criteria, draws)
  {
    && m.Keys == (set c | c in criteria)
    && (forall c :: c in m ==> 60 <= m[c] <= 100)
    && (forall k :: 0 <= k < |criteria| && LastBefore(criteria, k, |criteria|) ==>
          m[criteria[k]] == CriterionScore(answer, criteria[k], draws[k]))
  }

  method CriteriaScores(criteria: seq<string>, answer: string, draws: seq<real>)
    returns (scores: map<string, int>)
    requires ValidDraws(criteria, draws)
    ensures CriteriaRules(criteria, answer, draws, scores)
  {
    scores := map[];
    for i := 0 to |criteria|
      invariant forall c :: c in scores <==> c in criteria[..i]
      invariant forall c :: c in scores ==> 60 <= scores[c] <= 100
      invariant forall k :: 0 <= k < i && LastBefore(criteria, k, i) ==>
                  scores[criteria[k]] == CriterionScore(answer, criteria[k], draws[k])
    {
      scores := scores[criteria[i] := CriterionScore(answer, criteria[i], draws[i])];
      assert criteria[..i + 1] == criteria[..i] + [criteria[i]];
      forall k | 0 <= k < i + 1 && LastBefore(criteria, k, i + 1)
        ensures scores[criteria[k]] == CriterionScore(answer, criteria[k], draws[k])
      {
        if k < i {
          assert LastBefore(criteria, k, i) && criteria[i] != criteria[k];
        }
      }
    }
    assert criteria[..|criteria|] == criteria;
  }

  /** A criterion whose lower-cased label starts with a space (or is empty)
      has an empty first word, which every answer includes: it always
      earns the 10-point bonus. */
  lemma BlankFirstWordAlwaysMentioned(answer: string, criterion: string, r: real)
    requires 0.0 <= r < 1.0
    requires |criterion| == 0 || criterion[0] == ' '
    ensures MentionsCriterion(answer, criterion)
    ensures CriterionScore(answer, criterion, r) >= 70
  {
    assert FirstPiece(Lower(criterion), ' ') == "";
  }

  // ---------------------------------------------------------------------
  // Personalised tips

  /** The two statistics of the user's progress that the tips read. */
  datatype UserStats = UserStats(averageScore: real, averageTime: real)

  datatype Tip = StructureAnswers | IncludeSpecificExamples | BeMoreConcise | UseStarMethod | ResearchCompany

  method PersonalizedTips(stats: UserStats) returns (tips: seq<Tip>)
    ensures StructureAnswers in tips <==> stats.averageScore < 70.0
    ensures IncludeSpecificExamples in tips <==> stats.averageScore < 70.0
    ensures BeMoreConcise in tips <==> stats.averageTime > 600.0
    ensures |tips| == 2 + (if stats.averageScore < 70.0 then 2 else 0)
                        + (if stats.averageTime > 600.0 then 1 else 0)
    ensures stats.averageScore < 70.0 ==> tips[..2] == [StructureAnswers, IncludeSpecificExamples]
    ensures stats.averageTime > 600.0 ==> tips[|tips| - 3] == BeMoreConcise
    ensures tips[|tips| - 2..] == [UseStarMethod, ResearchCompany]
    ensures NoDuplicates(tips)
  {
    tips := [];
    if stats.averageScore < 70.0 {
      tips := tips + [StructureAnswers, IncludeSpecificExamples];
    }
    if stats.averageTime > 600.0 {
      tips := tips + [BeMoreConcise];
    }
    tips := tips + [UseStarMethod, ResearchCompany];
    // The four possible outcomes, written out for the duplicate check.
    if stats.averageScore < 70.0 {
      if stats.averageTime > 600.0 {
        assert tips == [StructureAnswers, IncludeSpecificExamples, BeMoreConcise, UseStarMethod, ResearchCompany];
      } else {
        assert tips == [StructureAnswers, IncludeSpecificExamples, UseStarMethod, ResearchCompany];
      }
    } else if stats.averageTime > 600.0 {
      assert tips == [BeMoreConcise, UseStarMethod, ResearchCompany];
    } else {
      assert tips == [UseStarMethod, ResearchCompany];
    }
  }
}
