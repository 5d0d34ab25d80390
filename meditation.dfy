/** The meditation timer: a countdown in seconds with start, pause, resume
    and reset, which records one session with the feature provider when the
    countdown reaches zero. */
module Meditation {
  import Features

  datatype MeditationType = Breathing | BodyScan | LovingKindness | Mindfulness | Guided | Unguided

  /** The id recorded as the session type. */
  function TypeId(t: MeditationType): (id: string)
    ensures |id| > 0
  {
    match t
    case Breathing => "breathing"
    case BodyScan => "body-scan"
    case LovingKindness => "loving-kindness"
    case Mindfulness => "mindfulness"
    case Guided => "guided"
    case Unguided => "unguided"
  }

  class MeditationTimer {
    var selectedType: MeditationType
    var duration: nat          // minutes
    var remainingTime: int     // seconds
    var isActive: bool
    var isPaused: bool
    var isSessionCompleted: bool

    /** The countdown never leaves 0..duration*60, and a completed session is
        never active. */
    ghost predicate Valid()
      reads this
    {
      && 0 <= remainingTime <= duration * 60
      && (isSessionCompleted ==> !isActive)
    }

    constructor ()
      ensures Valid()
      ensures selectedType == Breathing && duration == 5 && remainingTime == 300
      ensures !isActive && !isPaused && !isSessionCompleted
    {
      selectedType := Breathing;
      duration := 5;
      remainingTime := 5 * 60;
      isActive := false;
      isPaused := false;
      isSessionCompleted := false;
    }

    /** Whether the one-second interval is running. */
    predicate IsCounting()
      reads this
    {
      isActive && !isPaused && remainingTime > 0
    }

    /** A duration button. The countdown follows only a changed duration: the
        reset is an effect keyed on the duration, and setting the same value
        again does not re-run it. The buttons stay usable during a session
        when the settings panel was left open before Start. */
    method SetDuration(mins: nat)
      requires Valid()
      modifies this
      ensures Valid()
      ensures duration == mins
      ensures remainingTime == if mins != old(duration) then mins * 60 else old(remainingTime)
      ensures isActive == old(isActive) && isPaused == old(isPaused)
      ensures isSessionCompleted == old(isSessionCompleted) && selectedType == old(selectedType)
    {
      if mins != duration {
        duration := mins;
        remainingTime := duration * 60;
      }
    }

    /** The type buttons are ignored while a session is active. */
    method SelectType(t: MeditationType)
      requires Valid()
      modifies this
      ensures Valid()
      ensures selectedType == if old(isActive) then old(selectedType) else t
      ensures duration == old(duration) && remainingTime == old(remainingTime)
      ensures isActive == old(isActive) && isPaused == old(isPaused)
      ensures isSessionCompleted == old(isSessionCompleted)
    {
      if !isActive {
        selectedType := t;
      }
    }

    /** One interval callback: exactly one second off while counting, nothing otherwise. */
    method Tick()
      requires Valid()
      modifies this
      ensures Valid()
      ensures remainingTime == if old(IsCounting()) then old(remainingTime) - 1 else old(remainingTime)
      ensures isActive == old(isActive) && isPaused == old(isPaused)
      ensures isSessionCompleted == old(isSessionCompleted)
      ensures duration == old(duration) && selectedType == old(selectedType)
    {
      if isActive && !isPaused && remainingTime > 0 {
        remainingTime := remainingTime - 1;
      }
    }

    /** The completion branch of the timer effect, run after every state change:
        at zero while active the session ends and is recorded exactly once. */
    method CompleteIfFinished(store: Features.FeatureStore, now: Features.Instant)
      requires Valid()
      modifies this, store
      ensures Valid()
      ensures remainingTime == old(remainingTime) && isPaused == old(isPaused)
      ensures duration == old(duration) && selectedType == old(selectedType)
      ensures old(remainingTime == 0 && isActive) ==>
        !isActive && isSessionCompleted
        && store.meditationSessions == old(store.meditationSessions)
             + [Features.MeditationSession(now, duration, TypeId(selectedType))]
        && store.moodEntries == old(store.moodEntries)
        && store.stressTestResults == old(store.stressTestResults)
        && store.gamesPlayed == old(store.gamesPlayed)
        && store.natureSessionsCompleted == old(store.natureSessionsCompleted)
      ensures !old(remainingTime == 0 && isActive) ==>
        isActive == old(isActive) && isSessionCompleted == old(isSessionCompleted) && unchanged(store)
    {
      if isActive && !isPaused && remainingTime > 0 {
        // the interval is scheduled; ticks arrive through Tick
      } else if remainingTime == 0 && isActive {
        isActive := false;
        isSessionCompleted := true;
        store.AddMeditationSession(duration, TypeId(selectedType), now);
      }
    }

    method Start()
      requires Valid()
      modifies this
      ensures Valid()
      ensures isActive && !isPaused && !isSessionCompleted
      ensures remainingTime == old(remainingTime)
      ensures duration == old(duration) && selectedType == old(selectedType)
    {
      isActive := true;
      isPaused := false;
      isSessionCompleted := false;
    }

    method Pause()
      requires Valid()
      modifies this
      ensures Valid()
      ensures isPaused
      ensures isActive == old(isActive) && remainingTime == old(remainingTime)
      ensures isSessionCompleted == old(isSessionCompleted)
      ensures duration == old(duration) && selectedType == old(selectedType)
    {
      isPaused := true;
    }

    method Resume()
      requires Valid()
      modifies this
      ensures Valid()
      ensures !isPaused
      ensures isActive == old(isActive) && remainingTime == old(remainingTime)
      ensures isSessionCompleted == old(isSessionCompleted)
      ensures duration == old(duration) && selectedType == old(selectedType)
    {
      isPaused := false;
    }

    method Reset()
      requires Valid()
      modifies this
      ensures Valid()
      ensures !isActive && !isPaused && !isSessionCompleted
      ensures remainingTime == duration * 60
      ensures duration == old(duration) && selectedType == old(selectedType)
    {
      isActive := false;
      isPaused := false;
      remainingTime := duration * 60;
      isSessionCompleted := false;
    }

    /** Start, as it would be if pressing Play on a finished countdown began a
        fresh one instead of finishing again at once. */
    method StartFresh()
      requires Valid()
      modifies this
      ensures Valid()
      ensures isActive && !isPaused && !isSessionCompleted
      ensures remainingTime == if old(remainingTime) == 0 then duration * 60 else old(remainingTime)
      ensures duration == old(duration) && selectedType == old(selectedType)
      ensures duration > 0 ==> remainingTime > 0
    {
      if remainingTime == 0 {
        remainingTime := duration * 60;
      }
      isActive := true;
      isPaused := false;
      isSessionCompleted := false;
    }
  }

  /** Pausing then resuming leaves the countdown where it was; only the pause
      flag moves. */
  method PauseThenResume(t: MeditationTimer)
    requires t.Valid()
    modifies t
    ensures t.Valid()
    ensures t.remainingTime == old(t.remainingTime) && t.isActive == old(t.isActive)
    ensures t.isSessionCompleted == old(t.isSessionCompleted) && !t.isPaused
  {
    t.Pause();
    t.Resume();
  }

  /** Re-picking the current duration mid-session leaves the countdown alone:
      five minutes, Start, ten ticks, then "5" again still shows 290 seconds. */
  method ReselectingDurationKeepsCountdown() returns (left: int)
    ensures left == 290
  {
    var timer := new MeditationTimer();
    timer.Start();
    for i := 0 to 10
      invariant timer.Valid() && timer.IsCounting() && timer.duration == 5
      invariant timer.remainingTime == 300 - i
    {
      timer.Tick();
    }
    timer.SetDuration(5);
    left := timer.remainingTime;
  }

  /** As written: after a one-minute session completes, pressing Play again
      finds the countdown at 0 and completes at once, so a second session is
      recorded without a single tick. */
  method RestartRecordsSecondSession() returns (recorded: nat)
    ensures recorded == 2
  {
    var store := new Features.FeatureStore();
    var timer := new MeditationTimer();
    var now := Features.Instant(2024, 0, 0);
    timer.SetDuration(1);
    timer.Start();
    while timer.isActive
      invariant timer.Valid() && timer.duration == 1 && !timer.isPaused
      invariant timer.isActive ==> !timer.isSessionCompleted && store.meditationSessions == []
      invariant !timer.isActive ==> timer.isSessionCompleted && timer.remainingTime == 0
                                    && |store.meditationSessions| == 1
      decreases timer.remainingTime + (if timer.isActive then 1 else 0)
    {
      timer.Tick();
      timer.CompleteIfFinished(store, now);
    }
    timer.Start();
    timer.CompleteIfFinished(store, now);
    recorded := |store.meditationSessions|;
  }

  /** Corrected: with StartFresh, the completion step right after Play records
      nothing; the new session has to count down again. */
  method FreshStartRecordsNothing(timer: MeditationTimer, store: Features.FeatureStore, now: Features.Instant)
    requires timer.Valid() && timer.duration > 0
    modifies timer, store
    ensures timer.Valid() && timer.isActive && timer.remainingTime > 0
    ensures store.meditationSessions == old(store.meditationSessions)
  {
    timer.StartFresh();
    timer.CompleteIfFinished(store, now);
  }
}
