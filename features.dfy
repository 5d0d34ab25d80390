/** The feature provider: the in-memory lists and counters every wellness
    widget reports to (mood entries, stress test results, meditation sessions,
    games played, nature sessions completed). */
module Features {

  /** The five moods, in the order the pages list them. */
  datatype Mood = Happy | Neutral | Sad | Anxious | Stressed

  const MoodOrder: seq<Mood> := [Happy, Neutral, Sad, Anxious, Stressed]

  /** The lower-case key under which a mood is stored and counted. */
  function MoodKey(m: Mood): (k: string)
    ensures |k| >= 3
  {
    match m
    case Happy => "happy"
    case Neutral => "neutral"
    case Sad => "sad"
    case Anxious => "anxious"
    case Stressed => "stressed"
  }

  /** A point in time: year, month (0 for January up to 11) and an offset
      inside the month. Only the ordering and the month/year split are used. */
  datatype Instant = Instant(year: int, month: int, offset: int)

  /** Chronological order: lexicographic on (year, month, offset). */
  predicate AtOrBefore(a: Instant, b: Instant) {
    a.year < b.year
    || (a.year == b.year && a.month < b.month)
    || (a.year == b.year && a.month == b.month && a.offset <= b.offset)
  }

  /** The label stored with a stress test result. */
  datatype StressBand = Low | Moderate | High

  datatype MoodEntry = MoodEntry(date: Instant, mood: Mood, notes: string)
  datatype StressTestResult = StressTestResult(date: Instant, score: int, level: StressBand)
  datatype MeditationSession = MeditationSession(date: Instant, duration: int, kind: string)

  /** The level a stored stress result is labelled with. */
  function BandOf(score: int): (b: StressBand)
    ensures b == Low <==> score <= 13
    ensures b == Moderate <==> 13 < score <= 26
    ensures b == High <==> 26 < score
  {
    if score <= 13 then Low
    else if score <= 26 then Moderate
    else High
  }

  /** Number of entries with the given mood. */
  function CountMood(entries: seq<MoodEntry>, m: Mood): (n: nat)
    ensures n <= |entries|
  {
    if entries == [] then 0
    else (if entries[0].mood == m then 1 else 0) + CountMood(entries[1..], m)
  }

  /** The five per-mood counts sum to the number of entries, because every entry
      carries exactly one of the five moods. */
  lemma {:induction false} CountsCoverAllEntries(entries: seq<MoodEntry>)
    ensures CountMood(entries, Happy) + CountMood(entries, Neutral) + CountMood(entries, Sad)
            + CountMood(entries, Anxious) + CountMood(entries, Stressed) == |entries|
  {
    if entries != [] {
      CountsCoverAllEntries(entries[1..]);
    }
  }

  class FeatureStore {
    var moodEntries: seq<MoodEntry>
    var stressTestResults: seq<StressTestResult>
    var meditationSessions: seq<MeditationSession>
    var gamesPlayed: nat
    var natureSessionsCompleted: nat

    /** Lists start empty and counters start at 0. */
    constructor ()
      ensures moodEntries == [] && stressTestResults == [] && meditationSessions == []
      ensures gamesPlayed == 0 && natureSessionsCompleted == 0
    {
      moodEntries := [];
      stressTestResults := [];
      meditationSessions := [];
      gamesPlayed := 0;
      natureSessionsCompleted := 0;
    }

    method AddMoodEntry(mood: Mood, notes: string, now: Instant)
      modifies this
      ensures moodEntries == old(moodEntries) + [MoodEntry(now, mood, notes)]
      ensures stressTestResults == old(stressTestResults)
      ensures meditationSessions == old(meditationSessions)
      ensures gamesPlayed == old(gamesPlayed) && natureSessionsCompleted == old(natureSessionsCompleted)
    {
      moodEntries := moodEntries + [MoodEntry(now, mood, notes)];
    }

    method AddStressTestResult(score: int, now: Instant)
      modifies this
      ensures stressTestResults == old(stressTestResults) + [StressTestResult(now, score, BandOf(score))]
      ensures moodEntries == old(moodEntries)
      ensures meditationSessions == old(meditationSessions)
      ensures gamesPlayed == old(gamesPlayed) && natureSessionsCompleted == old(natureSessionsCompleted)
    {
      var level: StressBand;
      if score <= 13 {
        level := Low;
      } else if score <= 26 {
        level := Moderate;
      } else {
        level := High;
      }
      stressTestResults := stressTestResults + [StressTestResult(now, score, level)];
    }

    method AddMeditationSession(duration: int, kind: string, now: Instant)
      modifies this
      ensures meditationSessions == old(meditationSessions) + [MeditationSession(now, duration, kind)]
      ensures moodEntries == old(moodEntries)
      ensures stressTestResults == old(stressTestResults)
      ensures gamesPlayed == old(gamesPlayed) && natureSessionsCompleted == old(natureSessionsCompleted)
    {
      meditationSessions := meditationSessions + [MeditationSession(now, duration, kind)];
    }

    method IncrementGamesPlayed()
      modifies this
      ensures gamesPlayed == old(gamesPlayed) + 1
      ensures natureSessionsCompleted == old(natureSessionsCompleted)
      ensures moodEntries == old(moodEntries) && stressTestResults == old(stressTestResults)
      ensures meditationSessions == old(meditationSessions)
    {
      gamesPlayed := gamesPlayed + 1;
    }

    method IncrementNatureSessions()
      modifies this
      ensures natureSessionsCompleted == old(natureSessionsCompleted) + 1
      ensures gamesPlayed == old(gamesPlayed)
      ensures moodEntries == old(moodEntries) && stressTestResults == old(stressTestResults)
      ensures meditationSessions == old(meditationSessions)
    {
      natureSessionsCompleted := natureSessionsCompleted + 1;
    }
  }
}
