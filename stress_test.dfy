/** The ten-item Perceived Stress Scale questionnaire: answer cursor, scoring
    with reverse-scored items, level bands and recommendations. */
module StressTest {
  import Features

  const QuestionCount: nat := 10

  /** The value stored for a question not answered yet. */
  const Unanswered: int := -1

  /** Answer values offered: Never 0, Almost Never 1, Sometimes 2, Fairly Often 3, Very Often 4. */
  predicate IsOption(v: int) {
    0 <= v <= 4
  }

  /** Questions 4, 5, 7 and 8 (indices 3, 4, 6, 7) are positively stated. */
  predicate IsReverse(i: int) {
    i == 3 || i == 4 || i == 6 || i == 7
  }

  function ItemScore(i: int, v: int): int {
    if IsReverse(i) then 4 - v else v
  }

  /** Score of the first `n` answers. */
  function ScoreOf(answers: seq<int>, n: nat): int
    requires n <= |answers|
  {
    if n == 0 then 0 else ScoreOf(answers, n - 1) + ItemScore(n - 1, answers[n - 1])
  }

  function PssScore(answers: seq<int>): int
    requires |answers| == QuestionCount
  {
    ScoreOf(answers, QuestionCount)
  }

  predicate AllAnswered(answers: seq<int>) {
    forall i :: 0 <= i < |answers| ==> IsOption(answers[i])
  }

  lemma {:induction false} ScoreOfBounds(answers: seq<int>, n: nat)
    requires n <= |answers|
    requires forall i :: 0 <= i < n ==> IsOption(answers[i])
    ensures 0 <= ScoreOf(answers, n) <= 4 * n
  {
    if n > 0 {
      ScoreOfBounds(answers, n - 1);
    }
  }

  /** With every answer one of the five options the total lies in 0..40. */
  lemma ScoreInRange(answers: seq<int>)
    requires |answers| == QuestionCount && AllAnswered(answers)
    ensures 0 <= PssScore(answers) <= 40
  {
    ScoreOfBounds(answers, QuestionCount);
  }

  /** Every answer replaced by its opposite option. */
  function Mirror(answers: seq<int>): (m: seq<int>)
    ensures |m| == |answers|
    ensures forall i :: 0 <= i < |m| ==> m[i] == 4 - answers[i]
  {
    seq(|answers|, i requires 0 <= i < |answers| => 4 - answers[i])
  }

  /** Reverse scoring is a mirror: answering every item the opposite way turns
      a score s of the first n items into 4n - s, whichever items are reversed. */
  lemma {:induction false} MirrorScore(answers: seq<int>, n: nat)
    requires n <= |answers|
    ensures ScoreOf(Mirror(answers), n) == 4 * n - ScoreOf(answers, n)
  {
    if n > 0 {
      MirrorScore(answers, n - 1);
    }
  }

  /** The accumulation loop of the score calculation. */
  method SumAnswers(answers: seq<int>) returns (totalScore: int)
    requires |answers| == QuestionCount
    ensures totalScore == PssScore(answers)
  {
    totalScore := 0;
    for i := 0 to QuestionCount
      invariant totalScore == ScoreOf(answers, i)
    {
      var value := answers[i];
      if IsReverse(i) {
        totalScore := totalScore + (4 - value);
      } else {
        totalScore := totalScore + value;
      }
    }
  }

  /** The level the results page shows. */
  datatype StressLevel = Low | Moderate | High

  function GetStressLevel(score: int): (level: StressLevel)
    ensures level == Low <==> score <= 13
    ensures level == Moderate <==> 14 <= score <= 26
    ensures level == High <==> score > 26
  {
    if score <= 13 then Low
    else if score <= 26 then Moderate
    else High
  }

  /** The page's level and the label the feature provider stores agree. */
  lemma LevelMatchesStoredBand(score: int)
    ensures GetStressLevel(score) == Low <==> Features.BandOf(score) == Features.Low
    ensures GetStressLevel(score) == Moderate <==> Features.BandOf(score) == Features.Moderate
    ensures GetStressLevel(score) == High <==> Features.BandOf(score) == Features.High
  {
  }

  function Recommendations(level: StressLevel): (r: seq<string>)
    ensures level == Low ==> |r| == 4
    ensures level == Moderate ==> |r| == 5
    ensures level == High ==> |r| == 6 && r[0] == "Consider speaking with a mental health professional"
  {
    match level
    case Low => [
      "Continue your current stress management practices",
      "Consider incorporating regular mindfulness or meditation",
      "Maintain healthy sleep patterns",
      "Stay connected with your support network"]
    case Moderate => [
      "Schedule regular breaks throughout your day",
      "Try our meditation timer for guided relaxation",
      "Consider limiting caffeine and alcohol",
      "Prioritize physical activity for at least 30 minutes daily",
      "Use our mood tracking feature to identify stress triggers"]
    case High => [
      "Consider speaking with a mental health professional",
      "Practice deep breathing exercises several times daily",
      "Establish clear boundaries between work and personal time",
      "Use our Virtual Nature feature for quick stress relief",
      "Prioritize self-care activities that you enjoy",
      "Consider our AI emotional support feature for coping strategies"]
  }

  function Blank(): (answers: seq<int>)
    ensures |answers| == QuestionCount
    ensures forall i :: 0 <= i < QuestionCount ==> answers[i] == Unanswered
  {
    seq(QuestionCount, _ => Unanswered)
  }

  /** The questionnaire page: a cursor over the ten questions, the answers so
      far, and the submitted score. The question card and its buttons are only
      on screen until the test is submitted. */
  class StressTestPage {
    var currentQuestion: int
    var answers: seq<int>
    var isCompleted: bool
    var score: int

    /** Every slot is unanswered or holds an option; every question before the
        cursor has been answered (Next is disabled until the current one is). */
    ghost predicate Valid()
      reads this
    {
      && 0 <= currentQuestion < QuestionCount
      && |answers| == QuestionCount
      && (forall i :: 0 <= i < QuestionCount ==> answers[i] == Unanswered || IsOption(answers[i]))
      && (forall i :: 0 <= i < currentQuestion ==> answers[i] != Unanswered)
      && 0 <= score <= 40
    }

    constructor ()
      ensures Valid()
      ensures currentQuestion == 0 && answers == Blank() && !isCompleted && score == 0
    {
      currentQuestion := 0;
      answers := Blank();
      isCompleted := false;
      score := 0;
    }

    /** Whether the current question has an answer (enables the Next button). */
    function IsAnswered(): (answered: bool)
      reads this
      requires Valid()
      ensures answered <==> IsOption(answers[currentQuestion])
    {
      answers[currentQuestion] != Unanswered
    }

    method HandleAnswer(value: int)
      requires Valid() && !isCompleted && IsOption(value)
      modifies this
      ensures Valid()
      ensures answers == old(answers)[old(currentQuestion) := value]
      ensures currentQuestion == old(currentQuestion)
      ensures isCompleted == old(isCompleted) && score == old(score)
    {
      answers := answers[currentQuestion := value];
    }

    /** Next advances below the last question; on the last one it submits: the
        score is computed, stored with the feature provider and shown. */
    method GoToNextQuestion(store: Features.FeatureStore, now: Features.Instant)
      requires Valid() && !isCompleted && IsAnswered()
      modifies this, store
      ensures Valid()
      ensures answers == old(answers)
      ensures old(currentQuestion) < QuestionCount - 1 ==>
        currentQuestion == old(currentQuestion) + 1
        && isCompleted == old(isCompleted) && score == old(score)
        && unchanged(store)
      ensures old(currentQuestion) == QuestionCount - 1 ==>
        currentQuestion == old(currentQuestion)
        && isCompleted && score == PssScore(answers) && AllAnswered(answers)
        && store.stressTestResults == old(store.stressTestResults)
             + [Features.StressTestResult(now, score, Features.BandOf(score))]
        && store.moodEntries == old(store.moodEntries)
        && store.meditationSessions == old(store.meditationSessions)
        && store.gamesPlayed == old(store.gamesPlayed)
        && store.natureSessionsCompleted == old(store.natureSessionsCompleted)
    {
      if currentQuestion < QuestionCount - 1 {
        currentQuestion := currentQuestion + 1;
      } else {
        CalculateScore(store, now);
      }
    }

    method CalculateScore(store: Features.FeatureStore, now: Features.Instant)
      requires Valid() && !isCompleted && currentQuestion == QuestionCount - 1 && IsAnswered()
      modifies this, store
      ensures Valid()
      ensures answers == old(answers) && currentQuestion == old(currentQuestion)
      ensures isCompleted && score == PssScore(answers) && AllAnswered(answers)
      ensures store.stressTestResults == old(store.stressTestResults)
                + [Features.StressTestResult(now, score, Features.BandOf(score))]
      ensures store.moodEntries == old(store.moodEntries)
      ensures store.meditationSessions == old(store.meditationSessions)
      ensures store.gamesPlayed == old(store.gamesPlayed)
      ensures store.natureSessionsCompleted == old(store.natureSessionsCompleted)
    {
      assert AllAnswered(answers);
      ScoreInRange(answers);
      var totalScore := SumAnswers(answers);
      score := totalScore;
      store.AddStressTestResult(totalScore, now);
      isCompleted := true;
    }

    method GoToPreviousQuestion()
      requires Valid() && !isCompleted
      modifies this
      ensures Valid()
      ensures currentQuestion == if old(currentQuestion) > 0 then old(currentQuestion) - 1 else 0
      ensures answers == old(answers) && isCompleted == old(isCompleted) && score == old(score)
    {
      if currentQuestion > 0 {
        currentQuestion := currentQuestion - 1;
      }
    }

    /** "Take Test Again": every answer cleared, back to the first question. */
    method Retake()
      requires Valid()
      modifies this
      ensures Valid()
      ensures answers == Blank() && currentQuestion == 0 && !isCompleted
      ensures score == old(score)
    {
      isCompleted := false;
      currentQuestion := 0;
      answers := Blank();
    }
  }
}
