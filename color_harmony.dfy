/** The colour-memory mini-game: the player repeats a growing sequence of
    colours; a wrong click ends the game and counts one game played. */
module ColorHarmony {
  import Features

  datatype Color = Red | Blue | Green | Yellow | Purple

  const Colors: seq<Color> := [Red, Blue, Green, Yellow, Purple]

  /** Whether a click of `color` continues the sequence correctly, given the
      clicks so far. Past the end of the sequence nothing matches. */
  predicate Matches(sequence: seq<Color>, playerSequence: seq<Color>, color: Color) {
    |playerSequence| < |sequence| && sequence[|playerSequence|] == color
  }

  class ColorHarmonyGame {
    var sequence: seq<Color>
    var playerSequence: seq<Color>
    var isPlaying: bool
    var isPlayerTurn: bool
    var level: int
    var gameOver: bool

    constructor ()
      ensures sequence == [] && playerSequence == [] && !isPlaying && !isPlayerTurn
      ensures level == 1 && !gameOver
    {
      sequence, playerSequence := [], [];
      isPlaying, isPlayerTurn := false, false;
      level, gameOver := 1, false;
    }

    /** A new game with one colour to remember; `firstColor` stands for the random pick. */
    method StartGame(firstColor: Color)
      modifies this
      ensures sequence == [firstColor] && playerSequence == []
      ensures level == 1 && !gameOver && isPlaying && isPlayerTurn == old(isPlayerTurn)
    {
      sequence := [];
      playerSequence := [];
      level := 1;
      gameOver := false;
      isPlaying := true;
      sequence := [firstColor];
    }

    /** The sequence starts being shown: the player must wait. */
    method BeginPlayback()
      modifies this
      ensures !isPlayerTurn
      ensures sequence == old(sequence) && playerSequence == old(playerSequence)
      ensures isPlaying == old(isPlaying) && level == old(level) && gameOver == old(gameOver)
    {
      isPlayerTurn := false;
    }

    /** The sequence has been shown: the player's turn begins. */
    method EndPlayback()
      modifies this
      ensures isPlayerTurn
      ensures sequence == old(sequence) && playerSequence == old(playerSequence)
      ensures isPlaying == old(isPlaying) && level == old(level) && gameOver == old(gameOver)
    {
      isPlayerTurn := true;
    }

    method HandleColorClick(color: Color, store: Features.FeatureStore)
      modifies this, store
      ensures sequence == old(sequence)
      ensures !old(isPlayerTurn) ==> unchanged(this) && unchanged(store)
      ensures old(isPlayerTurn) && !Matches(old(sequence), old(playerSequence), color) ==>
        gameOver && !isPlaying && isPlayerTurn
        && playerSequence == old(playerSequence) + [color] && level == old(level)
        && store.gamesPlayed == old(store.gamesPlayed) + 1
        && store.natureSessionsCompleted == old(store.natureSessionsCompleted)
        && store.moodEntries == old(store.moodEntries)
        && store.stressTestResults == old(store.stressTestResults)
        && store.meditationSessions == old(store.meditationSessions)
      ensures old(isPlayerTurn) && Matches(old(sequence), old(playerSequence), color) ==>
        unchanged(store) && gameOver == old(gameOver) && isPlaying == old(isPlaying)
        && (if |old(playerSequence)| + 1 == |sequence|
            then playerSequence == [] && !isPlayerTurn && level == old(level) + 1
            else playerSequence == old(playerSequence) + [color] && isPlayerTurn && level == old(level))
    {
      if !isPlayerTurn {
        return;
      }
      var newPlayerSequence := playerSequence + [color];
      var currentIndex := |playerSequence|;
      playerSequence := newPlayerSequence;
      if currentIndex >= |sequence| || color != sequence[currentIndex] {
        gameOver := true;
        isPlaying := false;
        store.IncrementGamesPlayed();
        return;
      }
      if |newPlayerSequence| == |sequence| {
        playerSequence := [];
        isPlayerTurn := false;
        level := level + 1;
      }
    }

    /** The delayed step after a completed round: one more colour, `nextColor`
        standing for the random pick. */
    method ExtendSequence(nextColor: Color)
      modifies this
      ensures sequence == old(sequence) + [nextColor]
      ensures playerSequence == old(playerSequence) && isPlayerTurn == old(isPlayerTurn)
      ensures isPlaying == old(isPlaying) && level == old(level) && gameOver == old(gameOver)
    {
      sequence := sequence + [nextColor];
    }

    /** The click handler with the wrong-click branch also ending the player's
        turn, so a finished game accepts no further clicks. */
    method HandleColorClickEndingTurn(color: Color, store: Features.FeatureStore)
      modifies this, store
      ensures sequence == old(sequence)
      ensures !old(isPlayerTurn) ==> unchanged(this) && unchanged(store)
      ensures old(isPlayerTurn) && !Matches(old(sequence), old(playerSequence), color) ==>
        gameOver && !isPlaying && !isPlayerTurn
        && playerSequence == old(playerSequence) + [color] && level == old(level)
        && store.gamesPlayed == old(store.gamesPlayed) + 1
        && store.natureSessionsCompleted == old(store.natureSessionsCompleted)
        && store.moodEntries == old(store.moodEntries)
        && store.stressTestResults == old(store.stressTestResults)
        && store.meditationSessions == old(store.meditationSessions)
      ensures old(isPlayerTurn) && Matches(old(sequence), old(playerSequence), color) ==>
        unchanged(store) && gameOver == old(gameOver) && isPlaying == old(isPlaying)
        && (if |old(playerSequence)| + 1 == |sequence|
            then playerSequence == [] && !isPlayerTurn && level == old(level) + 1
            else playerSequence == old(playerSequence) + [color] && isPlayerTurn && level == old(level))
    {
      if !isPlayerTurn {
        return;
      }
      var newPlayerSequence := playerSequence + [color];
      var currentIndex := |playerSequence|;
      playerSequence := newPlayerSequence;
      if currentIndex >= |sequence| || color != sequence[currentIndex] {
        gameOver := true;
        isPlaying := false;
        isPlayerTurn := false;
        store.IncrementGamesPlayed();
        return;
      }
      if |newPlayerSequence| == |sequence| {
        playerSequence := [];
        isPlayerTurn := false;
        level := level + 1;
      }
    }
  }

  /** As written: with the sequence [Red], clicking Blue ends the game, yet the
      buttons stay enabled and a second Blue click counts a second game. */
  method ClicksAfterGameOverCount() returns (gamesPlayed: nat)
    ensures gamesPlayed == 2
  {
    var store := new Features.FeatureStore();
    var game := new ColorHarmonyGame();
    game.StartGame(Red);
    game.BeginPlayback();
    game.EndPlayback();
    game.HandleColorClick(Blue, store);
    assert game.gameOver && store.gamesPlayed == 1;
    game.HandleColorClick(Blue, store);
    gamesPlayed := store.gamesPlayed;
  }

  /** Corrected: after a wrong click, however many clicks follow, the game
      stays over and exactly one game has been counted. */
  method MistakeCountsOnce(game: ColorHarmonyGame, store: Features.FeatureStore, wrong: Color, clicks: seq<Color>)
    requires game.isPlayerTurn && !Matches(game.sequence, game.playerSequence, wrong)
    modifies game, store
    ensures game.gameOver && !game.isPlayerTurn && store.gamesPlayed == old(store.gamesPlayed) + 1
  {
    game.HandleColorClickEndingTurn(wrong, store);
    for i := 0 to |clicks|
      invariant game.gameOver && !game.isPlayerTurn
      invariant store.gamesPlayed == old(store.gamesPlayed) + 1
    {
      game.HandleColorClickEndingTurn(clicks[i], store);
    }
  }
}
