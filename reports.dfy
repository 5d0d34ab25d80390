/** The reports page: weekly or monthly views over the feature store, with
    date-range filters, chart data, totals, the stress trend, the wellness
    score band and the recommendation cards. */
module Reports {
  import opened Wrappers
  import Seqs
  import Ascii
  import opened Features
  import MoodTracking

  // ---------------------------------------------------------------------------
  // Date-range filters

  /** Inclusive range test: start <= d <= end. */
  predicate InRange(d: Instant, start: Instant, end: Instant) {
    AtOrBefore(start, d) && AtOrBefore(d, end)
  }

  function FilterMoodEntries(entries: seq<MoodEntry>, start: Instant, end: Instant): (r: seq<MoodEntry>)
    ensures |r| <= |entries|
    ensures forall e :: e in r <==> e in entries && InRange(e.date, start, end)
    ensures forall e :: multiset(r)[e] == if InRange(e.date, start, end) then multiset(entries)[e] else 0
  {
    Seqs.Filter(entries, (e: MoodEntry) => InRange(e.date, start, end))
  }

  function FilterStressResults(results: seq<StressTestResult>, start: Instant, end: Instant): (r: seq<StressTestResult>)
    ensures |r| <= |results|
    ensures forall x :: x in r <==> x in results && InRange(x.date, start, end)
    ensures forall x :: multiset(r)[x] == if InRange(x.date, start, end) then multiset(results)[x] else 0
  {
    Seqs.Filter(results, (x: StressTestResult) => InRange(x.date, start, end))
  }

  function FilterSessions(sessions: seq<MeditationSession>, start: Instant, end: Instant): (r: seq<MeditationSession>)
    ensures |r| <= |sessions|
    ensures forall x :: x in r <==> x in sessions && InRange(x.date, start, end)
    ensures forall x :: multiset(r)[x] == if InRange(x.date, start, end) then multiset(sessions)[x] else 0
  {
    Seqs.Filter(sessions, (x: MeditationSession) => InRange(x.date, start, end))
  }

  // ---------------------------------------------------------------------------
  // Mood chart

  /** `charAt(0).toUpperCase() + slice(1)`. */
  function Capitalize(s: string): (r: string)
    ensures |r| == |s|
    ensures |s| > 0 ==> r[0] == Ascii.UpperChar(s[0]) && r[1..] == s[1..]
  {
    if s == [] then [] else [Ascii.UpperChar(s[0])] + s[1..]
  }

  /** The label of a mood's slice in the pie chart. */
  function ChartName(m: Mood): string {
    Capitalize(MoodKey(m))
  }

  /** The chart labels are the stored keys with the first letter capitalised. */
  lemma ChartNamesAreCapitalisedKeys()
    ensures ChartName(Happy) == "Happy" && ChartName(Neutral) == "Neutral" && ChartName(Sad) == "Sad"
    ensures ChartName(Anxious) == "Anxious" && ChartName(Stressed) == "Stressed"
  {
    assert ChartName(Happy) == ['H'] + "appy";
    assert ChartName(Neutral) == ['N'] + "eutral";
    assert ChartName(Sad) == ['S'] + "ad";
    assert ChartName(Anxious) == ['A'] + "nxious";
    assert ChartName(Stressed) == ['S'] + "tressed";
  }

  /** Lower-casing a capitalised lower-case word gives the word back, so no
      two keys share a label. */
  lemma LowerCapitalized(s: string)
    requires |s| > 0 && Ascii.IsLower(s[0])
    requires forall i :: 0 <= i < |s| ==> !Ascii.IsUpper(s[i])
    ensures Ascii.ToLower(Capitalize(s)) == s
  {
    var l := Ascii.ToLower(Capitalize(s));
    Ascii.LowerUndoesUpper(s[0]);
    assert l[0] == s[0];
    assert forall i :: 1 <= i < |s| ==> l[i] == s[i];
  }

  /** One (label, count) point per mood, in the fixed key order. */
  function MoodChartData(entries: seq<MoodEntry>): (r: seq<(string, nat)>)
    ensures |r| == |MoodOrder|
    ensures forall i :: 0 <= i < |r| ==>
              r[i].0 == ChartName(MoodOrder[i]) && r[i].1 == CountMood(entries, MoodOrder[i])
  {
    var d := MoodTracking.Distribution(entries);
    seq(5, i requires 0 <= i < 5 => (ChartName(d[i].0), d[i].1))
  }

  // ---------------------------------------------------------------------------
  // Totals

  /** The reduce over the filtered sessions: durations added up from 0. */
  function TotalMinutes(sessions: seq<MeditationSession>): int {
    if sessions == [] then 0 else TotalMinutes(sessions[..|sessions| - 1]) + sessions[|sessions| - 1].duration
  }

  /** The total over two lists put together is the sum of their totals. */
  lemma {:induction false} TotalMinutesAppend(a: seq<MeditationSession>, b: seq<MeditationSession>)
    ensures TotalMinutes(a + b) == TotalMinutes(a) + TotalMinutes(b)
  {
    if b != [] {
      var b' := b[..|b| - 1];
      assert (a + b)[..|a + b| - 1] == a + b';
      TotalMinutesAppend(a, b');
    } else {
      assert a + b == a;
    }
  }

  /** A session recorded inside the displayed range adds its duration to the
      displayed total; one outside leaves the total as it was. */
  lemma RecordedSessionAddsItsMinutes(sessions: seq<MeditationSession>, x: MeditationSession, start: Instant, end: Instant)
    ensures TotalMinutes(FilterSessions(sessions + [x], start, end))
            == TotalMinutes(FilterSessions(sessions, start, end)) + (if InRange(x.date, start, end) then x.duration else 0)
  {
    Seqs.FilterSnoc(sessions, x, (s: MeditationSession) => InRange(s.date, start, end));
    TotalMinutesAppend(FilterSessions(sessions, start, end), if InRange(x.date, start, end) then [x] else []);
  }

  const GamesBar: string := "Games"
  const NatureBar: string := "Nature"
  const MeditationBar: string := "Meditation"
  const MoodLogsBar: string := "Mood Logs"
  const StressTestsBar: string := "Stress Tests"

  /** The activity bars over the store: games and nature sessions are lifetime
      counters, the other three count the records dated in [start, end]. */
  function ActivityData(gamesPlayed: nat, natureSessions: nat, sessions: seq<MeditationSession>,
                        moods: seq<MoodEntry>, results: seq<StressTestResult>,
                        start: Instant, end: Instant): (r: seq<(string, nat)>)
    ensures |r| == 5
    ensures r[0] == (GamesBar, gamesPlayed) && r[1] == (NatureBar, natureSessions)
    ensures r[2] == (MeditationBar, |FilterSessions(sessions, start, end)|)
    ensures r[3] == (MoodLogsBar, |FilterMoodEntries(moods, start, end)|)
    ensures r[4] == (StressTestsBar, |FilterStressResults(results, start, end)|)
  {
    Bars(gamesPlayed, natureSessions, |FilterSessions(sessions, start, end)|,
         |FilterMoodEntries(moods, start, end)|, |FilterStressResults(results, start, end)|)
  }

  /** The five labelled bars, in display order. */
  function Bars(games: nat, nature: nat, meditation: nat, moodLogs: nat, stressTests: nat): (r: seq<(string, nat)>)
    ensures |r| == 5
    ensures r[0] == (GamesBar, games) && r[1] == (NatureBar, nature) && r[2] == (MeditationBar, meditation)
    ensures r[3] == (MoodLogsBar, moodLogs) && r[4] == (StressTestsBar, stressTests)
  {
    [(GamesBar, games), (NatureBar, nature), (MeditationBar, meditation),
     (MoodLogsBar, moodLogs), (StressTestsBar, stressTests)]
  }

  /** A mood entry saved inside the range raises the Mood Logs bar by one; one
      outside leaves it; the other bars do not move. */
  lemma RecordedMoodRaisesItsBar(gamesPlayed: nat, natureSessions: nat, sessions: seq<MeditationSession>,
                                 moods: seq<MoodEntry>, results: seq<StressTestResult>,
                                 e: MoodEntry, start: Instant, end: Instant)
    ensures var before := ActivityData(gamesPlayed, natureSessions, sessions, moods, results, start, end);
            var after := ActivityData(gamesPlayed, natureSessions, sessions, moods + [e], results, start, end);
            && after[3].1 == before[3].1 + (if InRange(e.date, start, end) then 1 else 0)
            && after[0] == before[0] && after[1] == before[1]
            && after[2] == before[2] && after[4] == before[4]
  {
    Seqs.FilterSnoc(moods, e, (x: MoodEntry) => InRange(x.date, start, end));
  }

  /** The reduce that adds up the bar counts. */
  function SumBars(bars: seq<(string, nat)>): nat {
    if bars == [] then 0 else SumBars(bars[..|bars| - 1]) + bars[|bars| - 1].1
  }

  /** Total activities is the two counters plus the three record counts in range. */
  lemma TotalActivities(gamesPlayed: nat, natureSessions: nat, sessions: seq<MeditationSession>,
                        moods: seq<MoodEntry>, results: seq<StressTestResult>,
                        start: Instant, end: Instant)
    ensures SumBars(ActivityData(gamesPlayed, natureSessions, sessions, moods, results, start, end))
            == gamesPlayed + natureSessions + |FilterSessions(sessions, start, end)|
               + |FilterMoodEntries(moods, start, end)| + |FilterStressResults(results, start, end)|
  {
    var d: seq<(string, nat)> := ActivityData(gamesPlayed, natureSessions, sessions, moods, results, start, end);
    assert SumBars(d) == SumBars(d[..4]) + d[4].1;
    assert d[..4][..3] == d[..3];
    assert SumBars(d[..4]) == SumBars(d[..3]) + d[3].1;
    assert d[..3][..2] == d[..2];
    assert SumBars(d[..3]) == SumBars(d[..2]) + d[2].1;
    assert d[..2][..1] == d[..1];
    assert SumBars(d[..2]) == SumBars(d[..1]) + d[1].1;
    assert |d[..1][..0]| == 0;
  }

  // ---------------------------------------------------------------------------
  // Stress trend

  datatype Trend = Decrease | Increase | NoChange

  function Opposite(t: Trend): Trend {
    match t
    case Decrease => Increase
    case Increase => Decrease
    case NoChange => NoChange
  }

  /** The trend badge: shown only with more than one result, comparing the
      last score with the first. */
  function StressTrend(results: seq<StressTestResult>): (t: Option<Trend>)
    ensures t.Some? <==> |results| > 1
    ensures t == Some(Decrease) <==> |results| > 1 && results[|results| - 1].score < results[0].score
    ensures t == Some(Increase) <==> |results| > 1 && results[|results| - 1].score > results[0].score
    ensures t == Some(NoChange) <==> |results| > 1 && results[|results| - 1].score == results[0].score
  {
    if |results| <= 1 then None
    else
      var diff := results[|results| - 1].score - results[0].score;
      if diff < 0 then Some(Decrease)
      else if diff > 0 then Some(Increase)
      else Some(NoChange)
  }

  /** Read in the opposite order, the same results show the opposite trend. */
  lemma TrendOfReversedIsOpposite(results: seq<StressTestResult>)
    requires |results| > 1
    ensures StressTrend(Seqs.Reverse(results)) == Some(Opposite(StressTrend(results).value))
  {
    var r := Seqs.Reverse(results);
    assert r[0] == results[|results| - 1];
    assert r[|r| - 1] == results[0];
  }

  // ---------------------------------------------------------------------------
  // Wellness score

  /** `Math.max(0, Math.min(100, score))` on the rounded score. */
  function ClampScore(rounded: int): (s: int)
    ensures 0 <= s <= 100
    ensures 0 <= rounded <= 100 ==> s == rounded
    ensures rounded < 0 ==> s == 0
    ensures rounded > 100 ==> s == 100
  {
    if rounded < 0 then 0 else if rounded > 100 then 100 else rounded
  }

  datatype WellnessLevel = NeedsAttention | Average | Good | Excellent

  /** The label under the score gauge; Good unless one of the three tests fires. */
  function ScoreLevel(score: int): (l: WellnessLevel)
    ensures l == NeedsAttention <==> score < 40
    ensures l == Average <==> 40 <= score < 70
    ensures l == Good <==> 70 <= score < 90
    ensures l == Excellent <==> 90 <= score
  {
    var level := Good;
    if score < 40 then NeedsAttention
    else if score < 70 then Average
    else if score >= 90 then Excellent
    else level
  }

  function LevelRank(l: WellnessLevel): nat {
    match l
    case NeedsAttention => 0
    case Average => 1
    case Good => 2
    case Excellent => 3
  }

  /** A higher score never gets a lower label. */
  lemma ScoreLevelMonotone(s1: int, s2: int)
    requires s1 <= s2
    ensures LevelRank(ScoreLevel(s1)) <= LevelRank(ScoreLevel(s2))
  {
  }

  // ---------------------------------------------------------------------------
  // Recommendations

  datatype Recommendation = TrackMood | TakeStressTest | TryNatureEscape | StartMeditation | ContinueJourney

  function RecRank(r: Recommendation): nat {
    match r
    case TrackMood => 0
    case TakeStressTest => 1
    case TryNatureEscape => 2
    case StartMeditation => 3
    case ContinueJourney => 4
  }

  /** Every card pushed, before the list is cut to three: the four tests in
      their fixed order, then the fallback when none of them fired. */
  function Pushed(fewMoods: bool, noTests: bool, strained: bool, noSessions: bool): seq<Recommendation> {
    var fired :=
      (if fewMoods then [TrackMood] else [])
      + (if noTests then [TakeStressTest] else [])
      + (if strained then [TryNatureEscape] else [])
      + (if noSessions then [StartMeditation] else []);
    if fired == [] then [ContinueJourney] else fired
  }

  /** Each card appears exactly when its test fires, the fallback only alone,
      and the cards keep the order of the tests. */
  lemma PushedFollowsTests(fewMoods: bool, noTests: bool, strained: bool, noSessions: bool)
    ensures var r := Pushed(fewMoods, noTests, strained, noSessions);
      && 1 <= |r| <= 4
      && (TrackMood in r <==> fewMoods)
      && (TakeStressTest in r <==> noTests)
      && (TryNatureEscape in r <==> strained)
      && (StartMeditation in r <==> noSessions)
      && (ContinueJourney in r <==> r == [ContinueJourney])
      && (forall i, j :: 0 <= i < j < |r| ==> RecRank(r[i]) < RecRank(r[j]))
  {
    if fewMoods {
      if noTests {
      } else {
      }
    } else {
      if noTests {
      } else {
      }
    }
  }

  /** The tests as the page evaluates them on the records in range. */
  function Candidates(moods: seq<MoodEntry>, results: seq<StressTestResult>, sessions: seq<MeditationSession>):
    seq<Recommendation>
  {
    var d := MoodTracking.Distribution(moods);
    Pushed(MoodTracking.SumCounts(d) < 3, results == [], d[4].1 > 0 || d[3].1 > 0, sessions == [])
  }

  /** The mood test counts the entries in range; the nature test looks at the
      stressed and anxious counts. */
  lemma CandidatesFollowRecords(moods: seq<MoodEntry>, results: seq<StressTestResult>, sessions: seq<MeditationSession>)
    ensures Candidates(moods, results, sessions)
            == Pushed(|moods| < 3, results == [],
                      CountMood(moods, Stressed) > 0 || CountMood(moods, Anxious) > 0, sessions == [])
  {
    var d := MoodTracking.Distribution(moods);
    MoodTracking.SumOfFive(d);
    CountsCoverAllEntries(moods);
  }

  /** The recommendation panel: the cards are pushed in order and the first
      three are shown. */
  method BuildRecommendations(moods: seq<MoodEntry>, results: seq<StressTestResult>, sessions: seq<MeditationSession>)
    returns (shown: seq<Recommendation>)
    ensures |shown| == if |Candidates(moods, results, sessions)| > 3 then 3 else |Candidates(moods, results, sessions)|
    ensures shown == Candidates(moods, results, sessions)[..|shown|]
  {
    var moodDistribution := MoodTracking.Distribution(moods);
    var totalMoods := MoodTracking.SumCounts(moodDistribution);
    var recommendations: seq<Recommendation> := [];
    if totalMoods < 3 {
      recommendations := recommendations + [TrackMood];
    }
    if results == [] {
      recommendations := recommendations + [TakeStressTest];
    }
    if moodDistribution[4].1 > 0 || moodDistribution[3].1 > 0 {
      recommendations := recommendations + [TryNatureEscape];
    }
    if sessions == [] {
      recommendations := recommendations + [StartMeditation];
    }
    if |recommendations| == 0 {
      recommendations := recommendations + [ContinueJourney];
    }
    assert recommendations == Candidates(moods, results, sessions);
    shown := if |recommendations| > 3 then recommendations[..3] else recommendations;
  }

  // ---------------------------------------------------------------------------
  // Navigation

  datatype ReportType = Weekly | Monthly

  class ReportView {
    var reportType: ReportType
    var currentWeek: int
    var currentMonth: int

    /** 0 is the current week or month, -1 the one before, and so on. */
    ghost predicate Valid()
      reads this
    {
      currentWeek <= 0 && currentMonth <= 0
    }

    constructor ()
      ensures Valid() && reportType == Weekly && currentWeek == 0 && currentMonth == 0
    {
      reportType := Weekly;
      currentWeek := 0;
      currentMonth := 0;
    }

    /** The offset of the report type on show. */
    function ActiveOffset(): int
      reads this
    {
      if reportType == Weekly then currentWeek else currentMonth
    }

    method SelectReportType(t: ReportType)
      modifies this
      ensures reportType == t && currentWeek == old(currentWeek) && currentMonth == old(currentMonth)
    {
      reportType := t;
    }

    method GoToPrevious()
      requires Valid()
      modifies this
      ensures Valid() && reportType == old(reportType)
      ensures ActiveOffset() == old(ActiveOffset()) - 1
      ensures reportType == Weekly ==> currentMonth == old(currentMonth)
      ensures reportType == Monthly ==> currentWeek == old(currentWeek)
    {
      if reportType == Weekly {
        currentWeek := currentWeek - 1;
      } else {
        currentMonth := currentMonth - 1;
      }
    }

    /** Moves one period forward only from a past period, so no offset ever
        passes 0. */
    method GoToNext()
      requires Valid()
      modifies this
      ensures Valid() && reportType == old(reportType)
      ensures ActiveOffset() == if old(ActiveOffset()) < 0 then old(ActiveOffset()) + 1 else old(ActiveOffset())
      ensures reportType == Weekly ==> currentMonth == old(currentMonth)
      ensures reportType == Monthly ==> currentWeek == old(currentWeek)
    {
      if (reportType == Weekly && currentWeek < 0) || (reportType == Monthly && currentMonth < 0) {
        if reportType == Weekly {
          currentWeek := currentWeek + 1;
        } else {
          currentMonth := currentMonth + 1;
        }
      }
    }

    /** The Next button's `disabled` flag as written: it tests both offsets
        whatever the report type. */
    function NextButtonDisabled(): (b: bool)
      reads this
      ensures b <==> currentWeek == 0 || currentMonth == 0
    {
      currentWeek == 0 || currentMonth == 0
    }

    /** A click on the Next button as written: a disabled button does nothing. */
    method ClickNext()
      requires Valid()
      modifies this
      ensures Valid() && reportType == old(reportType)
      ensures old(NextButtonDisabled()) ==> currentWeek == old(currentWeek) && currentMonth == old(currentMonth)
      ensures !old(NextButtonDisabled()) ==> ActiveOffset() == old(ActiveOffset()) + 1
    {
      if !NextButtonDisabled() {
        GoToNext();
      }
    }

    /** The intended flag: disabled exactly when the period on show is the
        current one, which is exactly when Next could not move. */
    function NextDisabled(): (b: bool)
      reads this
      ensures b <==> ActiveOffset() == 0
    {
      ActiveOffset() == 0
    }

    /** A click on the Next button with the intended flag: it moves whenever
        the period on show lies in the past. */
    method ClickNextIntended()
      requires Valid()
      modifies this
      ensures Valid() && reportType == old(reportType)
      ensures old(NextDisabled()) ==> currentWeek == old(currentWeek) && currentMonth == old(currentMonth)
      ensures !old(NextDisabled()) ==> ActiveOffset() == old(ActiveOffset()) + 1
    {
      if !NextDisabled() {
        GoToNext();
      }
    }
  }

  /** As written: in the monthly report, one step back cannot be undone,
      because the untouched week offset keeps the Next button disabled. */
  method MonthlyNextStaysDisabled() returns (monthOffset: int)
    ensures monthOffset == -1
  {
    var view := new ReportView();
    view.SelectReportType(Monthly);
    view.GoToPrevious();
    view.ClickNext();
    monthOffset := view.currentMonth;
  }

  /** With the intended flag the same clicks return to the current month. */
  method MonthlyNextReturns() returns (monthOffset: int)
    ensures monthOffset == 0
  {
    var view := new ReportView();
    view.SelectReportType(Monthly);
    view.GoToPrevious();
    view.ClickNextIntended();
    monthOffset := view.currentMonth;
  }
}
