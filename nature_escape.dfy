/** The virtual nature escape player: a play/pause toggle that drives a
    countdown, and one completed nature session counted when it runs out. */
module NatureEscape {
  import Features

  datatype Scene = Forest | Beach | Rain | Mountains

  /** The page state. Play/pause, reset, ticks and completion all keep
      `isPlaying == isTimerActive`; only a scene switch breaks it, for the
      100 ms between stopping playback and starting it again. A Play/Pause
      click in that window takes the toggle's "resuming paused session"
      branch. */
  class NaturePlayer {
    var selectedScene: Scene
    var isPlaying: bool
    var timer: nat            // minutes
    var remainingTime: int    // seconds
    var isTimerActive: bool

    ghost predicate Valid()
      reads this
    {
      remainingTime >= 0
    }

    constructor ()
      ensures Valid()
      ensures selectedScene == Forest
      ensures !isPlaying && timer == 5 && remainingTime == 300 && !isTimerActive
    {
      selectedScene := Forest;
      isPlaying := false;
      timer := 5;
      remainingTime := 5 * 60;
      isTimerActive := false;
    }

    /** Play/pause. From idle a new session starts from the full duration; while
        playing the timer stops with the countdown kept. */
    method TogglePlayPause()
      requires Valid()
      modifies this
      ensures Valid()
      ensures selectedScene == old(selectedScene)
      ensures isPlaying == !old(isPlaying) && timer == old(timer)
      ensures !old(isPlaying) && !old(isTimerActive) ==>
        remainingTime == timer * 60 && isTimerActive
      ensures !old(isPlaying) && old(isTimerActive) ==>
        remainingTime == old(remainingTime) && isTimerActive
      ensures old(isPlaying) ==> remainingTime == old(remainingTime) && !isTimerActive
      ensures old(isPlaying == isTimerActive) ==> isPlaying == isTimerActive
    {
      if !isPlaying && !isTimerActive {
        remainingTime := timer * 60;
        isTimerActive := true;
      } else if !isPlaying && isTimerActive {
        isTimerActive := true;
      } else {
        isTimerActive := false;
      }
      isPlaying := !isPlaying;
    }

    method ResetSession()
      requires Valid()
      modifies this
      ensures Valid()
      ensures selectedScene == old(selectedScene)
      ensures !isPlaying && !isTimerActive && remainingTime == timer * 60 && timer == old(timer)
      ensures isPlaying == isTimerActive
    {
      isPlaying := false;
      isTimerActive := false;
      remainingTime := timer * 60;
    }

    /** One interval callback: a second off while the timer runs, nothing otherwise. */
    method Tick()
      requires Valid()
      modifies this
      ensures Valid()
      ensures selectedScene == old(selectedScene)
      ensures remainingTime ==
        if old(isTimerActive && remainingTime > 0) then old(remainingTime) - 1 else old(remainingTime)
      ensures isPlaying == old(isPlaying) && isTimerActive == old(isTimerActive) && timer == old(timer)
    {
      if isTimerActive && remainingTime > 0 {
        remainingTime := remainingTime - 1;
      }
    }

    /** The completion branch of the timer effect: at zero while the timer runs,
        playback stops, the timer stops and one nature session is counted. */
    method CompleteIfFinished(store: Features.FeatureStore)
      requires Valid()
      modifies this, store
      ensures Valid()
      ensures selectedScene == old(selectedScene)
      ensures remainingTime == old(remainingTime) && timer == old(timer)
      ensures old(remainingTime == 0 && isTimerActive) ==>
        !isPlaying && !isTimerActive
        && store.natureSessionsCompleted == old(store.natureSessionsCompleted) + 1
        && store.gamesPlayed == old(store.gamesPlayed)
        && store.moodEntries == old(store.moodEntries)
        && store.stressTestResults == old(store.stressTestResults)
        && store.meditationSessions == old(store.meditationSessions)
      ensures !old(remainingTime == 0 && isTimerActive) ==>
        isPlaying == old(isPlaying) && isTimerActive == old(isTimerActive) && unchanged(store)
      ensures old(isPlaying == isTimerActive) ==> isPlaying == isTimerActive
    {
      if isTimerActive && remainingTime > 0 {
        // the interval is scheduled; ticks arrive through Tick
      } else if remainingTime == 0 && isTimerActive {
        isPlaying := false;
        isTimerActive := false;
        store.IncrementNatureSessions();
      }
    }

    /** The duration selector: the countdown follows the new choice only while
        the timer is stopped. */
    method SelectDuration(newTimer: nat)
      requires Valid()
      modifies this
      ensures Valid()
      ensures selectedScene == old(selectedScene)
      ensures timer == newTimer
      ensures remainingTime == if old(isTimerActive) then old(remainingTime) else newTimer * 60
      ensures isPlaying == old(isPlaying) && isTimerActive == old(isTimerActive)
    {
      timer := newTimer;
      if !isTimerActive {
        remainingTime := newTimer * 60;
      }
    }

    /** A scene button. While playing, playback stops and a replay is
        scheduled 100 ms later; the timer is left running. */
    method SelectScene(scene: Scene) returns (replayScheduled: bool)
      requires Valid()
      modifies this
      ensures Valid()
      ensures selectedScene == scene && replayScheduled == old(isPlaying)
      ensures !isPlaying
      ensures isTimerActive == old(isTimerActive) && remainingTime == old(remainingTime) && timer == old(timer)
    {
      selectedScene := scene;
      replayScheduled := isPlaying;
      if isPlaying {
        isPlaying := false;
      }
    }

    /** The scheduled replay after a scene switch: playback restarts whatever
        happened in between. */
    method ReplayAfterSceneSwitch()
      requires Valid()
      modifies this
      ensures Valid() && isPlaying
      ensures isTimerActive == old(isTimerActive) && remainingTime == old(remainingTime)
      ensures timer == old(timer) && selectedScene == old(selectedScene)
    {
      isPlaying := true;
    }

    /** Play/pause as the source's comments describe it: pausing keeps the
        session (timer still marked active) and only stops playback, so the
        "resume" branch continues from where the countdown stood. */
    method TogglePlayPauseResuming()
      requires Valid()
      modifies this
      ensures Valid()
      ensures selectedScene == old(selectedScene)
      ensures isPlaying == !old(isPlaying) && timer == old(timer)
      ensures !old(isPlaying) && !old(isTimerActive) ==> remainingTime == timer * 60 && isTimerActive
      ensures !old(isPlaying) && old(isTimerActive) ==> remainingTime == old(remainingTime) && isTimerActive
      ensures old(isPlaying) ==> remainingTime == old(remainingTime) && isTimerActive == old(isTimerActive)
    {
      if !isPlaying && !isTimerActive {
        remainingTime := timer * 60;
        isTimerActive := true;
      }
      isPlaying := !isPlaying;
    }

    /** The interval as it must run with TogglePlayPauseResuming: only while playing. */
    method TickWhilePlaying()
      requires Valid()
      modifies this
      ensures Valid()
      ensures selectedScene == old(selectedScene)
      ensures remainingTime ==
        if old(isPlaying && isTimerActive && remainingTime > 0) then old(remainingTime) - 1 else old(remainingTime)
      ensures isPlaying == old(isPlaying) && isTimerActive == old(isTimerActive) && timer == old(timer)
    {
      if isPlaying && isTimerActive && remainingTime > 0 {
        remainingTime := remainingTime - 1;
      }
    }
  }

  /** As written: pausing clears the timer flag, so the next toggle takes the
      "new session" branch. Start a 5-minute session, let one second pass,
      pause and play again: the countdown is back at 300, not 299. */
  method ResumeRestartsCountdown() returns (afterResume: int)
    ensures afterResume == 300
  {
    var player := new NaturePlayer();
    player.TogglePlayPause();
    player.Tick();
    assert player.remainingTime == 299;
    player.TogglePlayPause();
    player.TogglePlayPause();
    afterResume := player.remainingTime;
  }

  /** A Play/Pause click inside the scene-switch window resumes: the countdown
      keeps its 299 seconds, and after the replay the player plays on. */
  method SceneSwitchWindowResumes() returns (left: int, playing: bool)
    ensures left == 299 && playing
  {
    var player := new NaturePlayer();
    player.TogglePlayPause();
    player.Tick();
    var scheduled := player.SelectScene(Rain);
    assert scheduled && !player.isPlaying && player.isTimerActive;
    player.TogglePlayPause();
    player.ReplayAfterSceneSwitch();
    left, playing := player.remainingTime, player.isPlaying;
  }

  /** A Reset inside the scene-switch window is undone halfway by the replay:
      the player plays on with the timer stopped, so ticks leave the
      countdown at its full length. */
  method ResetDuringSceneSwitch() returns (playing: bool, timerActive: bool, left: int)
    ensures playing && !timerActive && left == 300
  {
    var player := new NaturePlayer();
    player.TogglePlayPause();
    var scheduled := player.SelectScene(Beach);
    player.ResetSession();
    player.ReplayAfterSceneSwitch();
    player.Tick();
    playing, timerActive, left := player.isPlaying, player.isTimerActive, player.remainingTime;
  }

  /** Corrected: pause then play keeps the countdown, and a tick while paused
      takes nothing off it. */
  method PauseResumeKeepsCountdown(player: NaturePlayer)
    requires player.Valid() && player.isPlaying && player.isTimerActive
    modifies player
    ensures player.Valid() && player.isPlaying && player.isTimerActive
    ensures player.remainingTime == old(player.remainingTime)
  {
    player.TogglePlayPauseResuming();
    player.TickWhilePlaying();
    player.TogglePlayPauseResuming();
  }
}
