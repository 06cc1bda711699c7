/**
 * The client-side game state machine: the state the game hook keeps and the
 * handlers the board, the sidebar and the dialogs call. Random choices are
 * parameters (the colours of a new pattern, the colour a challenge run grows
 * by, the code a completed level receives), and timer firings are events
 * the environment raises: `Tick` for the one-second countdown, `RevealStep`
 * and `RevealDone` for the callbacks of the pattern reveal.
 */
module GameStateMachine {
  import opened Common
  import opened GameRules

  /** A reveal callback scheduled with setTimeout and not yet run. */
  datatype RevealTimer =
    | RevealNext(shown: seq<Color>, index: nat)  // the 800 ms step that highlights colour `index` of `shown`
    | BeginPlaying                               // the 2000 ms pause after the reveal, then input is accepted

  /** clearTimeout on the handle the reveal ref holds (a no-op when it already ran). */
  function Cancelled(pending: map<nat, RevealTimer>, ref: Option<nat>): map<nat, RevealTimer>
  {
    if ref.Some? then pending - {ref.value} else pending
  }

  class GameState {
    var gameMode: GameMode
    var gamePhase: GamePhase
    var currentLevel: int
    var currentScore: int
    var timeRemaining: int
    var pattern: seq<Color>
    var userInput: seq<Color>
    var patternProgress: nat
    var unlockedLevels: int
    var secretCode: string
    var levelCodes: map<int, string>

    var isGameOverModalOpen: bool
    var isLevelCompleteModalOpen: bool
    var isInstructionsModalOpen: bool

    var finalScore: int
    var levelsCompleted: int
    var levelSecretCode: string
    var timeBonus: int
    var accuracyBonus: int
    var totalScore: int

    /** Reveal callbacks scheduled and not yet run or cleared, by handle. */
    var pendingReveal: map<nat, RevealTimer>
    /** The handle the next setTimeout returns. */
    var nextHandle: nat
    /** The reveal timer ref: the handle stored by the latest reveal callback scheduled. */
    var patternTimeoutRef: Option<nat>

    ghost predicate Valid()
      reads this
    {
      && currentLevel >= 1
      && unlockedLevels >= 1
      && currentScore >= 0
      && timeRemaining >= 0
      && (forall k :: k in levelCodes ==> k >= 1 && IsSecretCode(levelCodes[k]))
      && (forall h :: h in pendingReveal ==> h < nextHandle)
    }

    /** The one-second countdown is scheduled exactly in this state. */
    predicate CountdownArmed()
      reads this
    {
      gameMode == Levels && gamePhase == Playing && timeRemaining > 0
    }

    /** The state handleGameOver leaves behind. */
    ghost predicate IsGameOver(scoreBefore: int, unlockedBefore: int, pendingBefore: map<nat, RevealTimer>)
      reads this
    {
      && gamePhase == Failed
      && finalScore == scoreBefore
      && levelsCompleted == unlockedBefore - 1
      && isGameOverModalOpen
      && pendingReveal == Cancelled(pendingBefore, patternTimeoutRef)
    }

    /** The results handleLevelComplete records for `level`. */
    ghost predicate IsLevelComplete(level: int, unlockedBefore: int, seconds: int, earned: int,
                                    codesBefore: map<int, string>, code: string)
      reads this
    {
      && levelCodes == codesBefore[level := code]
      && levelSecretCode == code
      && timeBonus == 5 * seconds
      && accuracyBonus == AccuracyBonus
      && totalScore == earned + 5 * seconds + AccuracyBonus
      && unlockedLevels == Max(unlockedBefore, level + 1)
      && isLevelCompleteModalOpen
    }

    /** The game-over results and the reveal timers are as they were. */
    twostate predicate GameOverUntouched()
      reads this
    {
      unchanged(this`finalScore, this`levelsCompleted, this`isGameOverModalOpen, this`pendingReveal)
    }

    /** The level-completion results and the progression are as they were. */
    twostate predicate LevelResultsUntouched()
      reads this
    {
      unchanged(this`levelCodes, this`levelSecretCode, this`timeBonus, this`accuracyBonus,
                this`totalScore, this`unlockedLevels, this`isLevelCompleteModalOpen)
    }

    /** The initial values of every piece of hook state. */
    constructor ()
      ensures Valid()
      ensures gameMode == Levels && gamePhase == Idle
      ensures currentLevel == 1 && currentScore == 0 && timeRemaining == 30
      ensures pattern == [] && userInput == [] && patternProgress == 0
      ensures unlockedLevels == 1 && secretCode == "" && levelCodes == map[]
      ensures !isGameOverModalOpen && !isLevelCompleteModalOpen && !isInstructionsModalOpen
      ensures finalScore == 0 && levelsCompleted == 0 && levelSecretCode == ""
      ensures timeBonus == 0 && accuracyBonus == 0 && totalScore == 0
      ensures pendingReveal == map[] && nextHandle == 0 && patternTimeoutRef == None
    {
      gameMode, gamePhase := Levels, Idle;
      currentLevel, currentScore, timeRemaining := 1, 0, 30;
      pattern, userInput, patternProgress := [], [], 0;
      unlockedLevels, secretCode, levelCodes := 1, "", map[];
      isGameOverModalOpen, isLevelCompleteModalOpen, isInstructionsModalOpen := false, false, false;
      finalScore, levelsCompleted, levelSecretCode := 0, 0, "";
      timeBonus, accuracyBonus, totalScore := 0, 0, 0;
      pendingReveal, nextHandle, patternTimeoutRef := map[], 0, None;
    }

    // -------------------------------------------------------------------------
    // Reveal timers

    /** setTimeout for a reveal callback; its handle goes into the reveal ref. */
    method ArmReveal(t: RevealTimer)
      requires Valid()
      modifies this`pendingReveal, this`nextHandle, this`patternTimeoutRef
      ensures Valid()
      ensures old(nextHandle) !in old(pendingReveal)
      ensures pendingReveal == old(pendingReveal)[old(nextHandle) := t]
      ensures nextHandle == old(nextHandle) + 1
      ensures patternTimeoutRef == Some(old(nextHandle))
    {
      pendingReveal := pendingReveal[nextHandle := t];
      patternTimeoutRef := Some(nextHandle);
      nextHandle := nextHandle + 1;
    }

    /**
     * One run of showNext for `shown` at `index`: past the end the reveal is
     * over and input opens after a pause; otherwise one more colour is lit.
     */
    method ShowNext(shown: seq<Color>, index: nat)
      requires Valid()
      modifies this`gamePhase, this`patternProgress, this`pendingReveal, this`nextHandle, this`patternTimeoutRef
      ensures Valid()
      ensures nextHandle == old(nextHandle) + 1 && patternTimeoutRef == Some(old(nextHandle))
      ensures index >= |shown| ==>
        && gamePhase == Waiting && patternProgress == old(patternProgress)
        && pendingReveal == old(pendingReveal)[old(nextHandle) := BeginPlaying]
      ensures index < |shown| ==>
        && gamePhase == old(gamePhase) && patternProgress == index + 1
        && pendingReveal == old(pendingReveal)[old(nextHandle) := RevealNext(shown, index + 1)]
    {
      if index >= |shown| {
        gamePhase := Waiting;
        ArmReveal(BeginPlaying);
        return;
      }
      patternProgress := index + 1;
      ArmReveal(RevealNext(shown, index + 1));
    }

    /** showPatternSequence: resets the progress and runs the first step at once. */
    method ShowPatternSequence(shown: seq<Color>)
      requires Valid() && |shown| > 0
      modifies this`gamePhase, this`patternProgress, this`pendingReveal, this`nextHandle, this`patternTimeoutRef
      ensures Valid()
      ensures gamePhase == old(gamePhase) && patternProgress == 1
      ensures pendingReveal == old(pendingReveal)[old(nextHandle) := RevealNext(shown, 1)]
      ensures nextHandle == old(nextHandle) + 1 && patternTimeoutRef == Some(old(nextHandle))
    {
      patternProgress := 0;
      ShowNext(shown, 0);
    }

    /** The 800 ms reveal callback with handle `h` fires. */
    method RevealStep(h: nat)
      requires Valid() && h in pendingReveal && pendingReveal[h].RevealNext?
      modifies this`gamePhase, this`patternProgress, this`pendingReveal, this`nextHandle, this`patternTimeoutRef
      ensures Valid()
      ensures nextHandle == old(nextHandle) + 1 && patternTimeoutRef == Some(old(nextHandle))
      ensures var t := old(pendingReveal[h]);
        t.index >= |t.shown| ==>
          && gamePhase == Waiting && patternProgress == old(patternProgress)
          && pendingReveal == (old(pendingReveal) - {h})[old(nextHandle) := BeginPlaying]
      ensures var t := old(pendingReveal[h]);
        t.index < |t.shown| ==>
          && gamePhase == old(gamePhase) && patternProgress == t.index + 1
          && pendingReveal == (old(pendingReveal) - {h})[old(nextHandle) := RevealNext(t.shown, t.index + 1)]
    {
      var t := pendingReveal[h];
      pendingReveal := pendingReveal - {h};
      ShowNext(t.shown, t.index);
    }

    /** The 2000 ms callback with handle `h` fires: input is accepted from now on. */
    method RevealDone(h: nat)
      requires Valid() && h in pendingReveal && pendingReveal[h] == BeginPlaying
      modifies this`gamePhase, this`pendingReveal, this`finalScore, this`levelsCompleted, this`isGameOverModalOpen
      ensures Valid()
      ensures gameMode == Levels && timeRemaining == 0 ==>
        IsGameOver(old(currentScore), old(unlockedLevels), old(pendingReveal) - {h})
      ensures !(gameMode == Levels && timeRemaining == 0) ==>
        && gamePhase == Playing && pendingReveal == old(pendingReveal) - {h}
        && unchanged(this`finalScore, this`levelsCompleted, this`isGameOverModalOpen)
    {
      pendingReveal := pendingReveal - {h};
      gamePhase := Playing;
      ExpireIfOutOfTime();
    }

    // -------------------------------------------------------------------------
    // Countdown and game over

    /** handleGameOver: the round is lost, the results are recorded and the reveal ref is cleared. */
    method HandleGameOver()
      requires Valid()
      modifies this`gamePhase, this`finalScore, this`levelsCompleted, this`isGameOverModalOpen, this`pendingReveal
      ensures Valid()
      ensures IsGameOver(old(currentScore), old(unlockedLevels), old(pendingReveal))
    {
      gamePhase := Failed;
      finalScore := currentScore;
      levelsCompleted := unlockedLevels - 1;
      isGameOverModalOpen := true;
      pendingReveal := Cancelled(pendingReveal, patternTimeoutRef);
    }

    /** The countdown effect's second branch: a level being played with no time left is lost. */
    method ExpireIfOutOfTime()
      requires Valid()
      modifies this`gamePhase, this`finalScore, this`levelsCompleted, this`isGameOverModalOpen, this`pendingReveal
      ensures Valid()
      ensures old(gameMode == Levels && gamePhase == Playing && timeRemaining == 0) ==>
        IsGameOver(old(currentScore), old(unlockedLevels), old(pendingReveal))
      ensures !old(gameMode == Levels && gamePhase == Playing && timeRemaining == 0) ==> unchanged(this)
    {
      if gameMode == Levels && timeRemaining == 0 && gamePhase == Playing {
        HandleGameOver();
      }
    }

    /** The one-second countdown fires: a second is taken off, and at zero the round is lost. */
    method Tick()
      requires Valid() && CountdownArmed()
      modifies this`timeRemaining, this`gamePhase, this`finalScore, this`levelsCompleted,
               this`isGameOverModalOpen, this`pendingReveal
      ensures Valid()
      ensures timeRemaining == old(timeRemaining) - 1
      ensures timeRemaining == 0 ==> IsGameOver(old(currentScore), old(unlockedLevels), old(pendingReveal))
      ensures timeRemaining > 0 ==> gamePhase == Playing && GameOverUntouched()
    {
      timeRemaining := timeRemaining - 1;
      ExpireIfOutOfTime();
    }

    // -------------------------------------------------------------------------
    // Starting a round

    /**
     * startNewPattern with `colors` as the generator's output. Blocked while a
     * pattern is shown or played; in every other phase, `waiting` included,
     * it starts a new round without clearing any reveal timer still pending.
     */
    method StartNewPattern(colors: seq<Color>)
      requires Valid()
      requires |colors| == if gameMode == Challenge then ChallengeStartLength else PatternLength(currentLevel)
      modifies this`pattern, this`userInput, this`patternProgress, this`gamePhase, this`timeRemaining,
               this`currentScore, this`pendingReveal, this`nextHandle, this`patternTimeoutRef
      ensures Valid()
      ensures old(gamePhase) == Showing || old(gamePhase) == Playing ==> unchanged(this)
      ensures old(gamePhase) != Showing && old(gamePhase) != Playing ==>
        && pattern == colors && userInput == [] && gamePhase == Showing && patternProgress == 1
        && timeRemaining == (if gameMode == Challenge then 0 else TimeBudget(currentLevel))
        && currentScore == (if gameMode == Challenge then 0 else old(currentScore))
        && pendingReveal == old(pendingReveal)[old(nextHandle) := RevealNext(colors, 1)]
        && nextHandle == old(nextHandle) + 1 && patternTimeoutRef == Some(old(nextHandle))
    {
      if gamePhase == Showing || gamePhase == Playing {
        return;
      }
      pattern := colors;
      userInput := [];
      patternProgress := 0;
      gamePhase := Showing;
      if gameMode == Challenge {
        timeRemaining := 0;
        currentScore := 0;
      } else {
        timeRemaining := TimeBudget(currentLevel);
      }
      ShowPatternSequence(colors);
    }

    // -------------------------------------------------------------------------
    // Completing a level

    /** handleLevelComplete: stores the new code under the level and unlocks the next level. */
    method HandleLevelComplete(earned: int, newCode: string)
      requires Valid() && IsSecretCode(newCode)
      modifies this`levelCodes, this`levelSecretCode, this`timeBonus, this`accuracyBonus,
               this`totalScore, this`unlockedLevels, this`isLevelCompleteModalOpen
      ensures Valid()
      ensures IsLevelComplete(currentLevel, old(unlockedLevels), timeRemaining, earned, old(levelCodes), newCode)
    {
      levelCodes := levelCodes[currentLevel := newCode];
      levelSecretCode := newCode;
      timeBonus := TimeBonus(timeRemaining);
      accuracyBonus := AccuracyBonus;
      totalScore := earned + TimeBonus(timeRemaining) + AccuracyBonus;
      unlockedLevels := UnlockAfter(currentLevel, unlockedLevels);
      isLevelCompleteModalOpen := true;
    }

    /** handlePatternComplete, reached only from a levels-mode click. */
    method HandlePatternComplete(newCode: string)
      requires Valid() && IsSecretCode(newCode) && gameMode == Levels
      modifies this`currentScore, this`gamePhase, this`levelCodes, this`levelSecretCode, this`timeBonus,
               this`accuracyBonus, this`totalScore, this`unlockedLevels, this`isLevelCompleteModalOpen
      ensures Valid()
      ensures var earned := EarnedScore(|pattern|, timeRemaining, currentLevel);
        && currentScore == old(currentScore) + earned
        && gamePhase == Complete
        && IsLevelComplete(currentLevel, old(unlockedLevels), timeRemaining, earned, old(levelCodes), newCode)
    {
      var earned := EarnedScore(|pattern|, timeRemaining, currentLevel);
      currentScore := currentScore + earned;
      gamePhase := Complete;
      HandleLevelComplete(earned, newCode);
    }

    // -------------------------------------------------------------------------
    // Clicks

    /**
     * handleColorClick. `nextColor` is the colour a challenge run grows by and
     * `newCode` the code a completed level receives.
     */
    method HandleColorClick(color: Color, nextColor: Color, newCode: string)
      requires Valid() && IsSecretCode(newCode)
      modifies this`userInput, this`pattern, this`currentScore, this`gamePhase, this`finalScore,
               this`levelsCompleted, this`isGameOverModalOpen, this`pendingReveal, this`levelCodes,
               this`levelSecretCode, this`timeBonus, this`accuracyBonus, this`totalScore,
               this`unlockedLevels, this`isLevelCompleteModalOpen
      ensures Valid()
      ensures unlockedLevels >= old(unlockedLevels)
      ensures old(gamePhase) != Playing ==> unchanged(this)
      ensures old(gamePhase) == Playing ==> userInput == old(userInput) + [color]
      // a wrong colour, or a click past the end of the pattern, loses the round
      ensures old(gamePhase) == Playing && !ClickMatches(old(pattern), old(userInput), color) ==>
        && IsGameOver(old(currentScore), old(unlockedLevels), old(pendingReveal))
        && pattern == old(pattern) && currentScore == old(currentScore)
        && LevelResultsUntouched()
      // a right colour short of the end only records the click
      ensures old(gamePhase) == Playing && ClickMatches(old(pattern), old(userInput), color)
              && |old(userInput)| + 1 < |old(pattern)| ==>
        && gamePhase == Playing && pattern == old(pattern) && currentScore == old(currentScore)
        && GameOverUntouched() && LevelResultsUntouched()
      // levels: the last right colour completes the level
      ensures gameMode == Levels && old(gamePhase) == Playing && ClickMatches(old(pattern), old(userInput), color)
              && |old(userInput)| + 1 == |old(pattern)| ==>
        var earned := EarnedScore(|pattern|, timeRemaining, currentLevel);
        && gamePhase == Complete && pattern == old(pattern)
        && currentScore == old(currentScore) + earned
        && IsLevelComplete(currentLevel, old(unlockedLevels), timeRemaining, earned, old(levelCodes), newCode)
        && GameOverUntouched()
      // challenge: the last right colour grows the pattern by one colour and scores ten
      ensures gameMode == Challenge && old(gamePhase) == Playing && ClickMatches(old(pattern), old(userInput), color)
              && |old(userInput)| + 1 == |old(pattern)| ==>
        && gamePhase == Playing && pattern == old(pattern) + [nextColor]
        && currentScore == old(currentScore) + ChallengeStepScore
        && GameOverUntouched() && LevelResultsUntouched()
      // input that reproduces a prefix of the pattern keeps doing so until the round is lost
      ensures old(userInput <= pattern) && gamePhase != Failed ==> userInput <= pattern
      ensures old(gamePhase) == Playing && old(userInput <= pattern) && gamePhase == Complete ==>
        userInput == pattern
    {
      if gamePhase != Playing {
        return;
      }
      var newUserInput := userInput + [color];
      var isCorrect := ClickMatches(pattern, userInput, color);
      if isCorrect && userInput <= pattern {
        MatchingClickExtendsPrefix(pattern, userInput, color);
      }
      userInput := newUserInput;
      if !isCorrect {
        HandleGameOver();
        return;
      }
      if gameMode == Challenge {
        if |newUserInput| == |pattern| {
          pattern := pattern + [nextColor];
          currentScore := currentScore + ChallengeStepScore;
        }
      } else {
        if |newUserInput| == |pattern| {
          HandlePatternComplete(newCode);
        }
      }
    }

    // -------------------------------------------------------------------------
    // Navigation

    /** restartGame: back to an empty idle board; levels mode also returns to level 1. */
    method RestartGame()
      requires Valid()
      modifies this`gamePhase, this`currentScore, this`pattern, this`userInput, this`timeRemaining,
               this`isGameOverModalOpen, this`currentLevel
      ensures Valid()
      ensures gamePhase == Idle && currentScore == 0 && pattern == [] && userInput == []
      ensures timeRemaining == 30 && !isGameOverModalOpen
      ensures currentLevel == if gameMode == Levels then 1 else old(currentLevel)
    {
      gamePhase := Idle;
      currentScore := 0;
      pattern := [];
      userInput := [];
      timeRemaining := 30;
      isGameOverModalOpen := false;
      if gameMode == Levels {
        currentLevel := 1;
      }
    }

    /** nextLevel: one level up, with an empty idle board. */
    method NextLevel()
      requires Valid()
      modifies this`currentLevel, this`gamePhase, this`pattern, this`userInput, this`isLevelCompleteModalOpen
      ensures Valid()
      ensures currentLevel == old(currentLevel) + 1
      ensures gamePhase == Idle && pattern == [] && userInput == [] && !isLevelCompleteModalOpen
    {
      currentLevel := currentLevel + 1;
      gamePhase := Idle;
      pattern := [];
      userInput := [];
      isLevelCompleteModalOpen := false;
    }

    /** selectLevel: only an unlocked level can be chosen; it starts idle with its full time budget. */
    method SelectLevel(level: int)
      requires Valid() && level >= 1
      modifies this`currentLevel, this`gamePhase, this`pattern, this`userInput, this`timeRemaining
      ensures Valid()
      ensures level > unlockedLevels ==> unchanged(this)
      ensures level <= unlockedLevels ==>
        && currentLevel == level && gamePhase == Idle && pattern == [] && userInput == []
        && timeRemaining == TimeBudget(level)
    {
      if level <= unlockedLevels {
        currentLevel := level;
        gamePhase := Idle;
        pattern := [];
        userInput := [];
        timeRemaining := TimeBudget(level);
      }
    }

    /** setGameMode, after which the countdown effect re-checks for a round out of time. */
    method SetGameMode(mode: GameMode)
      requires Valid()
      modifies this`gameMode, this`gamePhase, this`finalScore, this`levelsCompleted,
               this`isGameOverModalOpen, this`pendingReveal
      ensures Valid()
      ensures gameMode == mode
      ensures mode == Levels && old(gamePhase) == Playing && timeRemaining == 0 ==>
        IsGameOver(old(currentScore), old(unlockedLevels), old(pendingReveal))
      ensures !(mode == Levels && old(gamePhase) == Playing && timeRemaining == 0) ==>
        gamePhase == old(gamePhase) && GameOverUntouched()
    {
      gameMode := mode;
      ExpireIfOutOfTime();
    }

    /** setSecretCode: the text typed into the code field. */
    method SetSecretCode(text: string)
      requires Valid()
      modifies this`secretCode
      ensures Valid() && secretCode == text
    {
      secretCode := text;
    }

    /** showInstructions. */
    method ShowInstructions()
      requires Valid()
      modifies this`isInstructionsModalOpen
      ensures Valid() && isInstructionsModalOpen
    {
      isInstructionsModalOpen := true;
    }

    /**
     * submitSecretCode: the typed text, upper-cased but not trimmed, is looked
     * up among the stored codes; the first level (ascending) holding it opens
     * the level after it. Unknown text changes nothing.
     */
    method SubmitSecretCode()
      requires Valid()
      modifies this`currentLevel, this`unlockedLevels, this`secretCode, this`gamePhase
      ensures Valid()
      ensures unlockedLevels >= old(unlockedLevels)
      ensures (forall k :: k in levelCodes ==> levelCodes[k] != ToUpper(old(secretCode))) ==> unchanged(this)
      ensures forall k :: IsLeastCodeKey(levelCodes, ToUpper(old(secretCode)), k) ==>
        && currentLevel == k + 1
        && unlockedLevels == Max(old(unlockedLevels), k + 1)
        && secretCode == "" && gamePhase == Idle
    {
      var target := LookupLevelCode(levelCodes, ToUpper(secretCode));
      if target.Some? {
        var level := target.value + 1;
        currentLevel := level;
        unlockedLevels := Max(unlockedLevels, level);
        secretCode := "";
        gamePhase := Idle;
        assert levelCodes[target.value] == ToUpper(old(secretCode));
      }
    }
  }

  /**
   * The reveal of the level-1 pattern green, red, green, red on a fresh game:
   * four 800 ms steps light the colours, then the 2000 ms pause opens input
   * with the full 35 seconds on the clock.
   */
  method ExampleReveal() returns (game: GameState)
    ensures fresh(game) && game.Valid() && game.gameMode == Levels && game.gamePhase == Playing
    ensures game.pattern == [Green, Red, Green, Red] && game.userInput == []
    ensures game.currentLevel == 1 && game.currentScore == 0 && game.timeRemaining == 35
    ensures game.unlockedLevels == 1 && game.levelCodes == map[]
  {
    game := new GameState();
    var colors := [Green, Red, Green, Red];
    game.StartNewPattern(colors);
    assert game.pendingReveal == map[0 := RevealNext(colors, 1)];
    game.RevealStep(0);
    assert game.pendingReveal == map[1 := RevealNext(colors, 2)];
    game.RevealStep(1);
    assert game.pendingReveal == map[2 := RevealNext(colors, 3)];
    game.RevealStep(2);
    assert game.pendingReveal == map[3 := RevealNext(colors, 4)];
    game.RevealStep(3);
    assert game.gamePhase == Waiting && game.patternProgress == 4;
    assert game.pendingReveal == map[4 := BeginPlaying];
    game.RevealDone(4);
  }

  /**
   * Four right clicks on that board complete level 1: 47 points for the
   * pattern, 175 for the 35 seconds left and 100 for accuracy; level 2 is
   * unlocked and the code is stored under level 1.
   */
  method ExampleRound()
  {
    var game := ExampleReveal();
    game.HandleColorClick(Green, Green, "MEMO");
    game.HandleColorClick(Red, Green, "MEMO");
    game.HandleColorClick(Green, Green, "MEMO");
    assert game.gamePhase == Playing && game.userInput == [Green, Red, Green];
    game.HandleColorClick(Red, Green, "MEMO");
    assert game.gamePhase == Complete;
    assert game.currentScore == 47 && game.totalScore == 47 + 175 + 100;
    assert game.unlockedLevels == 2 && game.levelCodes == map[1 := "MEMO"];
  }
}
