# Tan-Man wellness app — a Dafny model of its logic

Tan-Man is a client-side React wellness app. Its logic sits inside page
components and two context providers:

- the PSS-10 stress questionnaire and its scoring;
- a feature store that records moods, stress results and meditation sessions and counts games and nature sessions;
- countdown controllers for meditation and nature sessions;
- four mini-games (a breathing cycler, a colour-memory game, an 8×8 zen garden and bubble pop);
- a month-by-month mood tracker;
- weekly and monthly reports;
- a keyword-driven support chat;
- a mock account store with a sign-up form.

This project restates that logic in Dafny and proves what each part
promises.

The model keeps the app's own form.

- **State.** Components and providers whose state changes become classes whose fields the methods update. Each method states its whole new state.
- **Timers.** Timer callbacks and effects become explicit methods: `Tick` for one interval callback, and `CompleteIfFinished` / `EndIfTimeUp` for an effect's completion branch. A property over many ticks is proved on a pure step function that the class's `Tick` is tied to.
- **Pure code.** Filter/reduce expressions and pure helpers become functions with lemmas.
- **Outside inputs.** The clock, `new Date()`, `Date.now()` and `Math.random` become parameters: `now`, `firstColor`, `nextColor`, `pick`, and a bubble's id and position.

Modules, one per source file or component:

| module | models |
|---|---|
| `Features` | `src/contexts/FeatureContext.tsx`, plus the mood and date types shared by the pages |
| `StressTest` | `StressTestPage.tsx` |
| `Meditation`, `TimeFormat` | `MeditationTimer.tsx` and its `formatTime` (the nature page has an identical copy) |
| `NatureEscape` | `VirtualNaturePage.tsx` |
| `BreathingGame`, `ColorHarmony`, `ZenGarden`, `BubblePop` | the four games in `GamesPage.tsx` |
| `MoodTracking` | `MoodTrackingPage.tsx` |
| `Reports` | `ReportsPage.tsx` |
| `AISupport` | `AISupport.tsx` |
| `Auth` | `src/contexts/AuthContext.tsx` |
| `Signup` | `src/pages/SignupPage.tsx` |
| `Wrappers`, `Seqs`, `Numerals`, `Ascii` | shared helpers: Option/Result, `filter`, `String(n)` and its inverse, ASCII letter case |

Dates are `Features.Instant(year, month, offset)`, compared in chronological
(lexicographic) order. Only the order and the month/year split are used.

## Model

| member | source | states |
|---|---|---|
| StressTest.SumAnswers | Tan-Man-main/src/pages/features/StressTestPage.tsx:95-106 | The scoring loop returns `PssScore(answers)`: each answer counts as is, except items 4, 5, 7 and 8, which count as 4 minus the answer. |
| StressTest.ScoreOfBounds | Tan-Man-main/src/pages/features/StressTestPage.tsx:98-106 | With answers in 0..4, the running total after n items lies in 0..4n. |
| StressTest.ScoreInRange | Tan-Man-main/src/pages/features/StressTestPage.tsx:95-111 | A fully answered questionnaire scores between 0 and 40. |
| StressTest.MirrorScore | Tan-Man-main/src/pages/features/StressTestPage.tsx:98-106 | Replacing every answer v by 4−v turns a total s over n items into 4n−s. So reverse scoring is the exact mirror of normal scoring. |
| StressTest.GetStressLevel | Tan-Man-main/src/pages/features/StressTestPage.tsx:113-117 | Low exactly when score ≤ 13, Moderate exactly when 14..26, High exactly when > 26. |
| StressTest.LevelMatchesStoredBand | Tan-Man-main/src/pages/features/StressTestPage.tsx:113-117 | The page's level and the label the feature store saves (FeatureContext.tsx:72-77) always agree. |
| StressTest.Recommendations | Tan-Man-main/src/pages/features/StressTestPage.tsx:119-147 | 4 tips for Low, 5 for Moderate, 6 for High. The High list opens with speaking to a professional. |
| StressTest.Blank | Tan-Man-main/src/pages/features/StressTestPage.tsx:66 | Ten slots, all holding the unanswered marker −1. |
| StressTest.StressTestPage.constructor | Tan-Man-main/src/pages/features/StressTestPage.tsx:65-68 | Starts at question 0 with blank answers, not completed, score 0. |
| StressTest.StressTestPage.IsAnswered | Tan-Man-main/src/pages/features/StressTestPage.tsx:92 | True exactly when the current slot holds one of the options 0..4, not −1. |
| StressTest.StressTestPage.HandleAnswer | Tan-Man-main/src/pages/features/StressTestPage.tsx:72-76 | Only the slot at the current question changes, and it takes the chosen value. |
| StressTest.StressTestPage.GoToNextQuestion | Tan-Man-main/src/pages/features/StressTestPage.tsx:78-84 | Below the last question it moves on by one. At the last question it scores instead. The cursor stays in 0..9. |
| StressTest.StressTestPage.CalculateScore | Tan-Man-main/src/pages/features/StressTestPage.tsx:95-111 | Sets the score to `PssScore(answers)`, marks the test completed and appends exactly one result with that score to the store. |
| StressTest.StressTestPage.GoToPreviousQuestion | Tan-Man-main/src/pages/features/StressTestPage.tsx:86-90 | Steps back by one, never below 0, and nothing else changes. |
| StressTest.StressTestPage.Retake | Tan-Man-main/src/pages/features/StressTestPage.tsx:286-290 | All answers back to −1, question 0, not completed. |
| Features.BandOf | Tan-Man-main/src/contexts/FeatureContext.tsx:72-77 | low exactly when ≤ 13, moderate exactly when 14..26, high exactly when > 26. |
| Features.CountMood | Tan-Man-main/src/pages/features/MoodTrackingPage.tsx:53-57 | A mood's count never exceeds the number of entries. |
| Features.CountsCoverAllEntries | Tan-Man-main/src/pages/features/MoodTrackingPage.tsx:52-60 | The five per-mood counts add up to the number of entries. |
| Features.FeatureStore.constructor | Tan-Man-main/src/contexts/FeatureContext.tsx:54-58 | All three lists start empty and both counters start at 0. |
| Features.FeatureStore.AddMoodEntry | Tan-Man-main/src/contexts/FeatureContext.tsx:61-69 | Appends exactly one entry with the given mood, notes and time. Earlier entries and all other state are unchanged. |
| Features.FeatureStore.AddStressTestResult | Tan-Man-main/src/contexts/FeatureContext.tsx:72-85 | Appends exactly one result carrying the score and its band. Earlier results are kept in order. |
| Features.FeatureStore.AddMeditationSession | Tan-Man-main/src/contexts/FeatureContext.tsx:89-97 | Appends exactly one session with the given duration and type, and nothing else changes. |
| Features.FeatureStore.IncrementGamesPlayed | Tan-Man-main/src/contexts/FeatureContext.tsx:100-102 | Games played goes up by exactly 1, and nothing else changes. |
| Features.FeatureStore.IncrementNatureSessions | Tan-Man-main/src/contexts/FeatureContext.tsx:105-107 | Nature sessions goes up by exactly 1, and nothing else changes. |
| TimeFormat.FormatTime | Tan-Man-main/src/pages/features/MeditationTimer.tsx:169-173 | The text is minutes, a colon, then exactly two digits of seconds. |
| TimeFormat.PaddedSeconds | Tan-Man-main/src/pages/features/MeditationTimer.tsx:171-172 | Seconds below 60 print as exactly two digits that read back as the seconds. |
| TimeFormat.ParseFormatTime | Tan-Man-main/src/pages/features/MeditationTimer.tsx:169-173 | Reading the m:ss text back gives the original number of seconds. |
| TimeFormat.FormatTimeInjective | Tan-Man-main/src/pages/features/MeditationTimer.tsx:169-173 | Different second counts never print the same. |
| TimeFormat.FormatTimeExamples | Tan-Man-main/src/pages/features/MeditationTimer.tsx:169-173 | 300 → "5:00", 65 → "1:05", 0 → "0:00". |
| Meditation.MeditationTimer.constructor | Tan-Man-main/src/pages/features/MeditationTimer.tsx:62-69 | Breathing type, 5 minutes, 300 seconds left, and idle. |
| Meditation.MeditationTimer.SetDuration | Tan-Man-main/src/pages/features/MeditationTimer.tsx:96-98 | The duration takes the picked value. A changed duration resets the remaining time to duration×60. Picking the current duration again leaves the remaining time as it is, mid-session or after one. |
| Meditation.ReselectingDurationKeepsCountdown | Tan-Man-main/src/pages/features/MeditationTimer.tsx:96-98 | Five minutes, Start, ten ticks, then picking 5 again: 290 seconds remain. |
| Meditation.MeditationTimer.SelectType | Tan-Man-main/src/pages/features/MeditationTimer.tsx:199 | The type changes only when no session is active. |
| Meditation.MeditationTimer.Tick | Tan-Man-main/src/pages/features/MeditationTimer.tsx:104-107 | Active, not paused and above 0: the remaining time drops by exactly 1. Otherwise it is unchanged. |
| Meditation.MeditationTimer.CompleteIfFinished | Tan-Man-main/src/pages/features/MeditationTimer.tsx:108-121 | At 0 while active, the session ends, is marked completed and exactly one session with the current duration and type is recorded. Otherwise nothing changes. |
| Meditation.MeditationTimer.Start | Tan-Man-main/src/pages/features/MeditationTimer.tsx:139-143 | Active, not paused, not completed, and the remaining time is untouched. |
| Meditation.MeditationTimer.Pause | Tan-Man-main/src/pages/features/MeditationTimer.tsx:150-152 | Sets paused, and nothing else changes. |
| Meditation.MeditationTimer.Resume | Tan-Man-main/src/pages/features/MeditationTimer.tsx:154-156 | Clears paused, and nothing else changes. |
| Meditation.MeditationTimer.Reset | Tan-Man-main/src/pages/features/MeditationTimer.tsx:158-163 | Inactive, unpaused and not completed, with duration×60 seconds left. |
| Meditation.PauseThenResume | Tan-Man-main/src/pages/features/MeditationTimer.tsx:150-156 | Pause then resume leaves the remaining time and the active and completed flags as they were. |
| Meditation.RestartRecordsSecondSession | Tan-Man-main/src/pages/features/MeditationTimer.tsx:104-143 | As written: finishing a session and pressing Start again records a second session without a single tick. |
| Meditation.MeditationTimer.StartFresh | Tan-Man-main/src/pages/features/MeditationTimer.tsx:139-143 | Corrected Start: after a finished session it reloads duration×60, so a session with a positive duration starts with time left. |
| Meditation.FreshStartRecordsNothing | Tan-Man-main/src/pages/features/MeditationTimer.tsx:104-121 | With the corrected start, the completion branch records nothing right after starting. |
| NatureEscape.NaturePlayer.constructor | Tan-Man-main/src/pages/features/VirtualNaturePage.tsx:38-43 | Forest scene, not playing, 5-minute timer, 300 seconds left, timer inactive. |
| NatureEscape.NaturePlayer.SelectScene | Tan-Man-main/src/pages/features/VirtualNaturePage.tsx:120-125 | Selects the scene. While playing, it stops playback and schedules a replay; the timer keeps running and the countdown is kept. |
| NatureEscape.NaturePlayer.ReplayAfterSceneSwitch | Tan-Man-main/src/pages/features/VirtualNaturePage.tsx:124 | The delayed replay sets playing, whatever happened in between, and touches nothing else. |
| NatureEscape.SceneSwitchWindowResumes | Tan-Man-main/src/pages/features/VirtualNaturePage.tsx:80-94 | A Play/Pause click inside the scene-switch window takes the resume branch: 299 seconds are kept and the player plays on. |
| NatureEscape.ResetDuringSceneSwitch | Tan-Man-main/src/pages/features/VirtualNaturePage.tsx:96-100 | A Reset inside the scene-switch window is followed by the replay: the player plays with the timer stopped, and a tick leaves 300 seconds. |
| NatureEscape.NaturePlayer.TogglePlayPause | Tan-Man-main/src/pages/features/VirtualNaturePage.tsx:80-94 | From idle it loads timer×60 and activates. While playing it deactivates with the time kept. It always flips playing, and it keeps "playing iff timer active" true. |
| NatureEscape.NaturePlayer.ResetSession | Tan-Man-main/src/pages/features/VirtualNaturePage.tsx:96-100 | Not playing, timer inactive, timer×60 seconds left. |
| NatureEscape.NaturePlayer.Tick | Tan-Man-main/src/pages/features/VirtualNaturePage.tsx:66-69 | Timer active and above 0: down by exactly 1. Otherwise unchanged. |
| NatureEscape.NaturePlayer.CompleteIfFinished | Tan-Man-main/src/pages/features/VirtualNaturePage.tsx:70-75 | At 0 with the timer active, playback stops, the timer deactivates and the nature counter goes up once. Otherwise nothing changes. |
| NatureEscape.NaturePlayer.SelectDuration | Tan-Man-main/src/pages/features/VirtualNaturePage.tsx:203-211 | The new duration is always stored. The remaining time becomes new×60 only while the timer is inactive. |
| NatureEscape.ResumeRestartsCountdown | Tan-Man-main/src/pages/features/VirtualNaturePage.tsx:80-94 | As written: play, a tick, pause, then play again leaves 300 seconds, not 299. The countdown restarts. |
| NatureEscape.NaturePlayer.TogglePlayPauseResuming | Tan-Man-main/src/pages/features/VirtualNaturePage.tsx:80-94 | Corrected toggle: pausing keeps the timer armed, so resuming keeps the remaining time. |
| NatureEscape.NaturePlayer.TickWhilePlaying | Tan-Man-main/src/pages/features/VirtualNaturePage.tsx:66-69 | Corrected tick: it counts down only while playing. |
| NatureEscape.PauseResumeKeepsCountdown | Tan-Man-main/src/pages/features/VirtualNaturePage.tsx:80-94 | With the corrected handlers, pause then resume keeps the remaining time. |
| BreathingGame.BreathingGame.constructor | Tan-Man-main/src/pages/features/GamesPage.tsx:7-10 | Rest phase, counter 0, inactive, 0 cycles. |
| BreathingGame.BreathingGame.StartBreathing | Tan-Man-main/src/pages/features/GamesPage.tsx:47-52 | Inhale phase, counter 0, 0 cycles, active. |
| BreathingGame.BreathingGame.Tick | Tan-Man-main/src/pages/features/GamesPage.tsx:15-40 | One interval callback is one step of the phase machine, with the source's strict comparisons. |
| BreathingGame.InactiveStays | Tan-Man-main/src/pages/features/GamesPage.tsx:15 | Ticks do nothing while the exercise is inactive. |
| BreathingGame.Counting | Tan-Man-main/src/pages/features/GamesPage.tsx:17-39 | Inside a phase, each tick adds 1 to the counter. |
| BreathingGame.PhaseEnd | Tan-Man-main/src/pages/features/GamesPage.tsx:17-39 | A phase started at 0 gives way to the next one after its span. The counter resets to 0, and an exhale adds a cycle or ends the exercise. |
| BreathingGame.Cycle | Tan-Man-main/src/pages/features/GamesPage.tsx:17-39 | One inhale, hold and exhale takes exactly the cycle length in ticks. |
| BreathingGame.Exercise | Tan-Man-main/src/pages/features/GamesPage.tsx:27-36 | From Start, the exercise stays active for three full cycles and then returns to rest with 0 cycles. |
| BreathingGame.AsWrittenTakes66Ticks | Tan-Man-main/src/pages/features/GamesPage.tsx:17-39 | As written (`> 4`, `> 7`, `> 8`): the phases last 5, 8 and 9 ticks, so the exercise runs 66 ticks. |
| BreathingGame.IntendedTakes57Ticks | Tan-Man-main/src/pages/features/GamesPage.tsx:17-39 | With `>=`: phases of 4, 7 and 8 ticks, and the exercise runs 57 ticks. |
| ColorHarmony.ColorHarmonyGame.constructor | Tan-Man-main/src/pages/features/GamesPage.tsx:89-94 | Empty sequences, not playing, not the player's turn, level 1, not over. |
| ColorHarmony.ColorHarmonyGame.StartGame | Tan-Man-main/src/pages/features/GamesPage.tsx:123-132 | The sequence is the one first colour, the player sequence is empty, level 1, not over, playing. |
| ColorHarmony.ColorHarmonyGame.BeginPlayback | Tan-Man-main/src/pages/features/GamesPage.tsx:111-112 | Playback takes the turn away from the player. |
| ColorHarmony.ColorHarmonyGame.EndPlayback | Tan-Man-main/src/pages/features/GamesPage.tsx:118-120 | The end of playback gives the turn to the player. |
| ColorHarmony.ColorHarmonyGame.HandleColorClick | Tan-Man-main/src/pages/features/GamesPage.tsx:139-170 | Off-turn: no change at all. A wrong colour ends the game, stops play and counts one game played. A right colour extends the player sequence, and completing the sequence clears it, ends the turn and raises the level by 1. |
| ColorHarmony.ColorHarmonyGame.ExtendSequence | Tan-Man-main/src/pages/features/GamesPage.tsx:161-164 | The sequence grows by exactly the new colour. |
| ColorHarmony.ClicksAfterGameOverCount | Tan-Man-main/src/pages/features/GamesPage.tsx:139-152 | As written: after a mistake the turn stays open, so a second wrong click counts a second game. |
| ColorHarmony.ColorHarmonyGame.HandleColorClickEndingTurn | Tan-Man-main/src/pages/features/GamesPage.tsx:139-152 | Corrected click: the same outcome as the click handler in every branch, except that a mistake also ends the player's turn. |
| ColorHarmony.MistakeCountsOnce | Tan-Man-main/src/pages/features/GamesPage.tsx:139-152 | With the corrected click, one mistake counts one game, whatever sequence of clicks follows it; the game stays over and the turn stays closed. |
| ZenGarden.EmptyGrid | Tan-Man-main/src/pages/features/GamesPage.tsx:216 | An 8×8 grid of zeros. |
| ZenGarden.Mark | Tan-Man-main/src/pages/features/GamesPage.tsx:219-222 | Sets cell (row, col) to 1 and leaves every other cell as it was. |
| ZenGarden.MarkCommutes | Tan-Man-main/src/pages/features/GamesPage.tsx:219-231 | The order in which two cells are raked does not matter. |
| ZenGarden.MarkIdempotent | Tan-Man-main/src/pages/features/GamesPage.tsx:219-222 | Raking a cell twice is the same as raking it once. |
| ZenGarden.ZenGardenGame.constructor | Tan-Man-main/src/pages/features/GamesPage.tsx:216-217 | Empty grid, not drawing. |
| ZenGarden.ZenGardenGame.HandleMouseDown | Tan-Man-main/src/pages/features/GamesPage.tsx:219-224 | Starts drawing and rakes the pressed cell. |
| ZenGarden.ZenGardenGame.HandleMouseEnter | Tan-Man-main/src/pages/features/GamesPage.tsx:226-232 | Rakes the cell only while drawing, and otherwise changes nothing. |
| ZenGarden.ZenGardenGame.HandleMouseUp | Tan-Man-main/src/pages/features/GamesPage.tsx:234-236 | Stops drawing and keeps the grid. This also models the garden's mouse-leave handler. |
| ZenGarden.ZenGardenGame.ResetGarden | Tan-Man-main/src/pages/features/GamesPage.tsx:238-240 | The grid returns to all zeros. |
| BubblePop.WithoutId | Tan-Man-main/src/pages/features/GamesPage.tsx:317 | Keeps exactly the bubbles whose id differs from the popped one, each as often as it was in the list. |
| BubblePop.PopAbsentIdKeepsAll | Tan-Man-main/src/pages/features/GamesPage.tsx:317 | Popping an id no bubble has leaves the list exactly as it was. |
| BubblePop.BubblePopGame.constructor | Tan-Man-main/src/pages/features/GamesPage.tsx:279-282 | No bubbles, score 0, not playing, 30 seconds. |
| BubblePop.BubblePopGame.StartGame | Tan-Man-main/src/pages/features/GamesPage.tsx:309-314 | Score 0, 30 seconds, no bubbles, playing. |
| BubblePop.BubblePopGame.PopBubble | Tan-Man-main/src/pages/features/GamesPage.tsx:316-319 | Removes the bubbles with that id, keeps all others, and raises the score by exactly 1. |
| BubblePop.BubblePopGame.Tick | Tan-Man-main/src/pages/features/GamesPage.tsx:285-288 | While a round runs with time left, one second comes off. Otherwise the time is unchanged. |
| BubblePop.BubblePopGame.SpawnBubble | Tan-Man-main/src/pages/features/GamesPage.tsx:290-297 | While a round runs, exactly one bubble is added at the end. |
| BubblePop.BubblePopGame.EndIfTimeUp | Tan-Man-main/src/pages/features/GamesPage.tsx:303-306 | At 0 the round stops and the bubbles are cleared. The score is kept. |
| MoodTracking.PrevMonthOf | Tan-Man-main/src/pages/features/MoodTrackingPage.tsx:62-69 | The month before, within 0..11: month 0 goes to (11, year−1). |
| MoodTracking.NextMonthOf | Tan-Man-main/src/pages/features/MoodTrackingPage.tsx:71-78 | The month after, within 0..11: month 11 goes to (0, year+1). |
| MoodTracking.NavigationRoundTrip | Tan-Man-main/src/pages/features/MoodTrackingPage.tsx:62-78 | Next after previous, and previous after next, return to the same month and year. |
| MoodTracking.MonthEntries | Tan-Man-main/src/pages/features/MoodTrackingPage.tsx:46-49 | Exactly the entries whose month and year are the selected ones, each as often as it is stored. |
| MoodTracking.Distribution | Tan-Man-main/src/pages/features/MoodTrackingPage.tsx:52-58 | One count per mood, in the order happy, neutral, sad, anxious, stressed. |
| MoodTracking.TotalEntriesIsMonthCount | Tan-Man-main/src/pages/features/MoodTrackingPage.tsx:52-60 | `totalEntries` equals the number of entries in the month. |
| MoodTracking.Dominant | Tan-Man-main/src/pages/features/MoodTrackingPage.tsx:245-246 | The reduce returns one of the pairs, and its count is the largest. |
| MoodTracking.DominantIsLastMaximum | Tan-Man-main/src/pages/features/MoodTrackingPage.tsx:245-246 | Ties go to the later key: no pair after the chosen one reaches its count. |
| MoodTracking.DominantMood | Tan-Man-main/src/pages/features/MoodTrackingPage.tsx:245-246 | No mood has more entries in the month than the dominant mood. |
| MoodTracking.FullTieReportsStressed | Tan-Man-main/src/pages/features/MoodTrackingPage.tsx:245-246 | With all five counts equal, the dominant mood is stressed. |
| MoodTracking.MoodTracker.constructor | Tan-Man-main/src/pages/features/MoodTrackingPage.tsx:18-24 | No mood selected, empty notes, form hidden, on the month of `now`. |
| MoodTracking.MoodTracker.PreviousMonth | Tan-Man-main/src/pages/features/MoodTrackingPage.tsx:62-69 | Moves to `PrevMonthOf`, and the form is untouched. |
| MoodTracking.MoodTracker.NextMonth | Tan-Man-main/src/pages/features/MoodTrackingPage.tsx:71-78 | Moves to `NextMonthOf`, and the form is untouched. |
| MoodTracking.MoodTracker.ToggleForm | Tan-Man-main/src/pages/features/MoodTrackingPage.tsx:100 | Flips whether the form is shown. |
| MoodTracking.MoodTracker.SelectMood | Tan-Man-main/src/pages/features/MoodTrackingPage.tsx:113 | Selects the mood. |
| MoodTracking.MoodTracker.SetNotes | Tan-Man-main/src/pages/features/MoodTrackingPage.tsx:133 | Replaces the notes. |
| MoodTracking.MoodTracker.SaveMoodEntry | Tan-Man-main/src/pages/features/MoodTrackingPage.tsx:26-33 | With no mood selected nothing changes. Otherwise exactly one entry is stored, then the selection and notes are cleared and the form is hidden. |
| MoodTracking.SavedEntryJoinsMonth | Tan-Man-main/src/pages/features/MoodTrackingPage.tsx:46-57 | A saved entry appears at the end of its month's list, and its mood's count rises by one. |
| Reports.FilterMoodEntries | Tan-Man-main/src/pages/features/ReportsPage.tsx:54-57 | Keeps exactly the entries dated within [start, end], each as often as it is stored. |
| Reports.FilterStressResults | Tan-Man-main/src/pages/features/ReportsPage.tsx:59-62 | Keeps exactly the results dated within [start, end], each as often as it is stored. |
| Reports.FilterSessions | Tan-Man-main/src/pages/features/ReportsPage.tsx:64-67 | Keeps exactly the sessions dated within [start, end], each as often as it is stored. |
| Reports.Capitalize | Tan-Man-main/src/pages/features/ReportsPage.tsx:79 | Same length, first character upper-cased, the rest kept. |
| Reports.ChartNamesAreCapitalisedKeys | Tan-Man-main/src/pages/features/ReportsPage.tsx:78-81 | The labels are Happy, Neutral, Sad, Anxious, Stressed. |
| Reports.LowerCapitalized | Tan-Man-main/src/pages/features/ReportsPage.tsx:79 | Lower-casing a capitalised lower-case key gives the key back. |
| Reports.MoodChartData | Tan-Man-main/src/pages/features/ReportsPage.tsx:70-81 | Five points in key order, each with its capitalised label and its mood's count. |
| Reports.TotalMinutesAppend | Tan-Man-main/src/pages/features/ReportsPage.tsx:89 | The minutes total over two lists is the sum of the two totals. |
| Reports.RecordedSessionAddsItsMinutes | Tan-Man-main/src/pages/features/ReportsPage.tsx:64-89 | A new session inside the range adds its duration to the total shown. One outside the range adds nothing. |
| Reports.ActivityData | Tan-Man-main/src/pages/features/ReportsPage.tsx:54-98 | Over the whole store and a range: the games and nature counters as they are, then the number of sessions, mood entries and stress results that the range filters keep. |
| Reports.RecordedMoodRaisesItsBar | Tan-Man-main/src/pages/features/ReportsPage.tsx:54-98 | Saving a mood entry inside the range raises the Mood Logs bar by one, one outside leaves it, and the other four bars do not move. |
| Reports.TotalActivities | Tan-Man-main/src/pages/features/ReportsPage.tsx:335 | The total is games + nature + the sessions, mood entries and stress results in range. |
| Reports.StressTrend | Tan-Man-main/src/pages/features/ReportsPage.tsx:272-296 | Shown only with more than one result: decrease iff last < first, increase iff last > first, no change iff equal. |
| Reports.TrendOfReversedIsOpposite | Tan-Man-main/src/pages/features/ReportsPage.tsx:272-296 | The same results in reverse order give the opposite trend. |
| Reports.ClampScore | Tan-Man-main/src/pages/features/ReportsPage.tsx:405 | The score lies in 0..100. In-range values are kept, lower values become 0 and higher ones 100. |
| Reports.ScoreLevel | Tan-Man-main/src/pages/features/ReportsPage.tsx:407-419 | Needs Attention iff < 40, Average iff 40..69, Good iff 70..89, Excellent iff ≥ 90. |
| Reports.ScoreLevelMonotone | Tan-Man-main/src/pages/features/ReportsPage.tsx:407-419 | A higher score never gets a lower label. |
| Reports.PushedFollowsTests | Tan-Man-main/src/pages/features/ReportsPage.tsx:486-534 | Each card appears iff its test fires. The fallback appears only alone, only when no test fired. Cards keep the order of the tests. |
| Reports.CandidatesFollowRecords | Tan-Man-main/src/pages/features/ReportsPage.tsx:482-514 | The mood test counts the entries in range; the nature test reads the stressed and anxious counts. |
| Reports.BuildRecommendations | Tan-Man-main/src/pages/features/ReportsPage.tsx:480-536 | Shows the first `min(3, n)` of the n pushed cards, in order. |
| Reports.ReportView.constructor | Tan-Man-main/src/pages/features/ReportsPage.tsx:9-11 | Weekly report, both offsets 0. |
| Reports.ReportView.SelectReportType | Tan-Man-main/src/pages/features/ReportsPage.tsx:135-151 | Switches the type and keeps both offsets. |
| Reports.ReportView.GoToPrevious | Tan-Man-main/src/pages/features/ReportsPage.tsx:104-110 | The active offset goes down by 1, and the other offset is untouched. |
| Reports.ReportView.GoToNext | Tan-Man-main/src/pages/features/ReportsPage.tsx:112-120 | The active offset goes up by 1 only when it is negative, so offsets never pass 0. The other offset is untouched. |
| Reports.ReportView.NextButtonDisabled | Tan-Man-main/src/pages/features/ReportsPage.tsx:167 | As written: disabled iff either offset is 0, whatever the report type. |
| Reports.ReportView.ClickNext | Tan-Man-main/src/pages/features/ReportsPage.tsx:165-168 | As written: a disabled button changes nothing, and an enabled one moves forward one period. |
| Reports.MonthlyNextStaysDisabled | Tan-Man-main/src/pages/features/ReportsPage.tsx:165-168 | As written: in the monthly report, one step back cannot be undone; the offset stays −1. |
| Reports.ReportView.NextDisabled | Tan-Man-main/src/pages/features/ReportsPage.tsx:167 | Corrected flag: disabled iff the active offset is 0, which is exactly when Next cannot move. |
| Reports.ReportView.ClickNextIntended | Tan-Man-main/src/pages/features/ReportsPage.tsx:165-168 | Corrected button: it moves forward whenever the period shown is in the past. |
| Reports.MonthlyNextReturns | Tan-Man-main/src/pages/features/ReportsPage.tsx:104-120 | With the corrected flag, back then forward returns to the current month. |
| Ascii.ToLower | Tan-Man-main/src/pages/features/AISupport.tsx:52 | Same length; each upper-case ASCII letter lowered, everything else kept. |
| Ascii.ToLowerIdempotent | Tan-Man-main/src/pages/features/AISupport.tsx:52 | A lowered message has no upper-case letter left, so lowering twice equals lowering once. |
| AISupport.Contains | Tan-Man-main/src/pages/features/AISupport.tsx:54-63 | True iff the keyword occurs at some position of the message. |
| AISupport.ContainsInside | Tan-Man-main/src/pages/features/AISupport.tsx:54 | A keyword inside a longer word is found. |
| AISupport.ContainsAny | Tan-Man-main/src/pages/features/AISupport.tsx:54-63 | True iff some keyword of the list occurs in the message. |
| AISupport.Classify | Tan-Man-main/src/pages/features/AISupport.tsx:52-66 | The category (not General) has one of its keywords in the lower-cased message. No category tried earlier does. General means no category matched. |
| AISupport.ClassifyIgnoresCase | Tan-Man-main/src/pages/features/AISupport.tsx:52 | A message and its lower-cased form get the same category. |
| AISupport.GreetingWins | Tan-Man-main/src/pages/features/AISupport.tsx:54-55 | Any greeting keyword makes the category Greeting, whatever else the message says. |
| AISupport.UnhappyIsNeverHappy | Tan-Man-main/src/pages/features/AISupport.tsx:58-61 | A message containing "unhappy" is classed at or before Sad, never Happy. |
| AISupport.SubstringGreeting | Tan-Man-main/src/pages/features/AISupport.tsx:54 | "this" is a greeting, because it contains "hi". |
| AISupport.Responses | Tan-Man-main/src/pages/features/AISupport.tsx:6-39 | Every category has at least three replies. |
| AISupport.GetResponse | Tan-Man-main/src/pages/features/AISupport.tsx:42-45 | The reply is an element of the category's list. |
| AISupport.EveryResponseCanBeDrawn | Tan-Man-main/src/pages/features/AISupport.tsx:42-45 | Every reply of the list can be drawn. |
| AISupport.Chat.constructor | Tan-Man-main/src/pages/features/AISupport.tsx:79-88 | The conversation opens with the welcome message, with empty input and not typing. |
| AISupport.Chat.SetInput | Tan-Man-main/src/pages/features/AISupport.tsx:230 | Replaces the input text only. |
| AISupport.Chat.HandleSendMessage | Tan-Man-main/src/pages/features/AISupport.tsx:99-142 | Blank or whitespace input: nothing changes. Otherwise the user's message and then exactly one reply are appended: the classified reply, or the error text on failure. The input is then cleared and typing is off. Earlier messages are kept. |
| Auth.PlanDays | Tan-Man-main/src/contexts/AuthContext.tsx:127-140 | Every plan runs at least 10 days. |
| Auth.LongerPlansRunLonger | Tan-Man-main/src/contexts/AuthContext.tsx:127-140 | Free < monthly < quarterly < yearly in days: 10, 30, 90, 365. |
| Auth.PlanEnd | Tan-Man-main/src/contexts/AuthContext.tsx:124-140 | The end lies a whole number of days ahead of `now`: exactly the plan's days. |
| Auth.ProfileOf | Tan-Man-main/src/contexts/AuthContext.tsx:99-105 | The signed-in user carries the account's id, name, email and plan, and not its password. |
| Auth.FindFirst | Tan-Man-main/src/contexts/AuthContext.tsx:93 | The index of the first matching account, or none iff no account matches. |
| Auth.IdsAreDistinct | Tan-Man-main/src/contexts/AuthContext.tsx:73 | Ids numbered by position from 1 are all different. |
| Auth.NewAccountIsFound | Tan-Man-main/src/contexts/AuthContext.tsx:66-93 | An account appended under a new email is the first match for its email, and for its email and password. |
| Auth.AuthService.constructor | Tan-Man-main/src/contexts/AuthContext.tsx:27-40 | Only the test account is registered, and nobody is signed in. |
| Auth.AuthService.Signup | Tan-Man-main/src/contexts/AuthContext.tsx:64-88 | A registered email fails with "Email already exists" and changes nothing. Otherwise one account is appended with id = old count + 1, the free plan and an end date 10 days ahead, and it becomes the current user. Emails stay distinct. |
| Auth.AuthService.Login | Tan-Man-main/src/contexts/AuthContext.tsx:91-112 | Succeeds iff some account has this email and password, and signs in the first such account. Otherwise it fails with "Invalid email or password" and the user is unchanged. |
| Auth.AuthService.Logout | Tan-Man-main/src/contexts/AuthContext.tsx:115-118 | Nobody is signed in afterwards. |
| Auth.AuthService.UpdateSubscription | Tan-Man-main/src/contexts/AuthContext.tsx:121-153 | Signed out: nothing happens. Signed in: only the plan and its end date change; id, name and email are kept. The stored accounts are untouched. |
| Auth.SignupThenLogin | Tan-Man-main/src/contexts/AuthContext.tsx:64-112 | After a successful sign-up, logging out and back in signs in the new account on the free plan. |
| Signup.ValidateSignup | Tan-Man-main/src/pages/SignupPage.tsx:21-27 | "Passwords do not match" iff the two differ. "Password must be at least 6 characters" iff they agree and are shorter than 6. No error iff they agree and have at least 6 characters. |
| Signup.MismatchTakesPrecedence | Tan-Man-main/src/pages/SignupPage.tsx:21-27 | A short password that also mismatches reports the mismatch. |
| Signup.SignupForm.constructor | Tan-Man-main/src/pages/SignupPage.tsx:12-13 | No error, not loading. |
| Signup.SignupForm.HandleSubmit | Tan-Man-main/src/pages/SignupPage.tsx:17-39 | A failed check sets its message and does not call sign-up. Otherwise the error is cleared and sign-up is called. A refusal shows "Failed to create an account. " plus the reason and leaves the accounts and the signed-in user alone. Success appends exactly the account sign-up creates (next id, free plan ending ten days on), signs its profile in and moves on. |

## Left out

- Timers and effects: `setInterval`, `setTimeout` and effect re-scheduling are not modelled. Each interval callback is a `Tick` method, each effect's completion branch is a method, and each delayed step (colour playback, adding the next colour, the replay after a scene switch) is an explicit call. The order in which the browser interleaves them is not modelled.
- Audio (ambient sound, bells, mute and volume) is not modelled. The nature page's scene switch is modelled only through its effect on the playing flag.
- Randomness: colour picks, bubble positions and reply choice are parameters. `GetResponse` takes the draw modulo the list length.
- Floating point: the wellness-score arithmetic (mood ratio, average stress, meditation and activity bonuses), the rounded percentages, the trend percentage and the average stress score are not modelled. `ClampScore` takes the rounded score as input.
- Dates and locale: calendar arithmetic for week and month ranges (`getDay`, `setDate`, month overflow) and all locale formatting are not modelled. A range is given by its two end instants.
- Storage and ids: `localStorage`, `JSON` and the `Date.now()` ids of records and messages are not modelled. Timestamps of chat messages are also not modelled.
- DOM: colour flashing, scrolling, animation and charts are not modelled.
- The chat's asynchronous send is modelled as one atomic step. The one-second delay, and a second send through the form's submit while a reply is pending, are not modelled. The responder never rejects in the source, so the `failed` parameter only exercises the error branch the code contains.
- Letter case is ASCII only, while `toLowerCase`/`toUpperCase` are Unicode. Password length counts characters, not the UTF-16 code units JavaScript counts. Both agree on ASCII input.
- The stress page's level colours, the mood emojis and the meditation type descriptions are presentation and are not modelled.
- The meditation timer's settings panel toggle and mute toggle are not modelled; they have no effect on the timing.

## Findings

| source | as written | input that shows it | evidently intended | confidence | as-written member | corrected member |
|---|---|---|---|---|---|---|
| Tan-Man-main/src/pages/features/GamesPage.tsx:21-27 | Phases end when the counter would exceed 4, 7 and 8, so they last 5, 8 and 9 ticks | Start and tick: the exercise runs 66 ticks | 4-7-8 breathing: phases of 4, 7 and 8 ticks, as the limits and the 4 s inhale / 8 s exhale animation (GamesPage.tsx:66-68) say; 57 ticks over three cycles | not executed | BreathingGame.AsWrittenTakes66Ticks | BreathingGame.IntendedTakes57Ticks |
| Tan-Man-main/src/pages/features/VirtualNaturePage.tsx:88-91 | Pausing clears the timer flag, so Play after a plain pause takes the new-session branch; only the scene switch reaches the resume branch | Play, one tick, pause, play: 300 seconds left | Resume continues from 299 | not executed | NatureEscape.ResumeRestartsCountdown | NatureEscape.PauseResumeKeepsCountdown |
| Tan-Man-main/src/pages/features/ReportsPage.tsx:167 | Next is disabled when either offset is 0, whatever the report type | Monthly report, Previous, Next: month offset stays −1 | Disabled only when the shown period is the current one | not executed | Reports.MonthlyNextStaysDisabled | Reports.MonthlyNextReturns |
| Tan-Man-main/src/pages/features/GamesPage.tsx:147-151 | A wrong colour leaves the player's turn open, so the buttons stay enabled | Two wrong clicks after one another: 2 games counted | One game counted per game | not executed | ColorHarmony.ClicksAfterGameOverCount | ColorHarmony.MistakeCountsOnce |
| Tan-Man-main/src/pages/features/MeditationTimer.tsx:139-143 | Start does not reload the time after a finished session | Finish a session, press Start: a second session is recorded at once | A new session starts with duration×60 seconds | not executed | Meditation.RestartRecordsSecondSession | Meditation.FreshStartRecordsNothing |
