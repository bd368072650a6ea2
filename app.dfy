/**
 * The screen state machine of src/App.tsx. `AppState` holds the seven state
 * variables; `Step` gives the effect of each handler; `Enabled` says on which
 * screen the rendered tree offers it. The class `App` holds the state
 * variables as fields and its methods replace them as the setters do.
 */
module App {
  import opened Wrappers
  import opened GameTypes

  datatype AppState = AppState(
    gameState: GameState,
    selectedCar: Option<string>,
    score: int,
    lives: int,
    level: int,
    isPaused: bool,
    isDayMode: bool)

  /** The handlers the rendered tree and the window listener can invoke. */
  datatype Action =
    | StartGame
    | SelectCar(carId: string)
    | GameOver
    | Restart
    | BackToMenu
    | ShowLeaderboard
    | ShowAchievements
    | ToggleDayNight
    | KeyPress(key: string)
    | HudPause
    | Resume
    | ScoreUpdate(score: int)
    | LivesUpdate(lives: int)
    | LevelUpdate(level: int)

  const Initial := AppState(Menu, None, 0, 3, 1, false, true)

  /** `!selectedCar`: no car, or the empty id. */
  predicate NoCar(c: Option<string>)
  {
    c.None? || c.value == ""
  }

  /** The effect of one handler on the state. */
  function Step(s: AppState, a: Action): AppState
  {
    match a
    case StartGame =>
      if NoCar(s.selectedCar) then s.(gameState := CarSelectionScreen)
      else s.(gameState := Playing, score := 0, lives := 3, level := 1, isPaused := false)
    case SelectCar(id) => s.(selectedCar := Some(id), gameState := Playing)
    case GameOver => s.(gameState := GameOverScreen)
    case Restart => s.(score := 0, lives := 3, level := 1, isPaused := false, gameState := Playing)
    case BackToMenu => s.(gameState := Menu, selectedCar := None)
    case ShowLeaderboard => s.(gameState := LeaderboardScreen)
    case ShowAchievements => s.(gameState := AchievementsScreen)
    case ToggleDayNight => s.(isDayMode := !s.isDayMode)
    case KeyPress(key) =>
      if key == " " && s.gameState == Playing then s.(isPaused := !s.isPaused) else s
    case HudPause => s.(isPaused := !s.isPaused)
    case Resume => s.(isPaused := false)
    case ScoreUpdate(n) => s.(score := n)
    case LivesUpdate(n) => s.(lives := n)
    case LevelUpdate(n) => s.(level := n)
  }

  /**
   * Where the rendered tree offers each handler: the home page offers start,
   * leaderboard, achievements and the day/night toggle; car selection offers
   * select and back; the playing screen wires the HUD pause button and the
   * engine callbacks, and the pause menu (shown while paused) resume, restart
   * and quit; the game-over screen offers restart and menu; the leaderboard
   * and achievements screens offer back. The key listener is always active.
   * The engine's `onScoreUpdate` can also arrive on the game-over screen: in
   * the frame that takes the last life, `onGameOver` fires inside the obstacle
   * loop of `checkCollisions`, and a pickup in the collectible loop that
   * follows still reports its score.
   */
  predicate Enabled(s: AppState, a: Action)
  {
    match a
    case StartGame => s.gameState == Menu
    case ShowLeaderboard => s.gameState == Menu
    case ShowAchievements => s.gameState == Menu
    case ToggleDayNight => s.gameState == Menu
    case SelectCar(_) => s.gameState == CarSelectionScreen
    case BackToMenu =>
      s.gameState in {CarSelectionScreen, GameOverScreen, LeaderboardScreen, AchievementsScreen}
      || (s.gameState == Playing && s.isPaused)
    case GameOver => s.gameState == Playing
    case HudPause => s.gameState == Playing
    case ScoreUpdate(_) => s.gameState in {Playing, GameOverScreen}
    case LivesUpdate(_) => s.gameState == Playing
    case LevelUpdate(_) => s.gameState == Playing
    case Resume => s.gameState == Playing && s.isPaused
    case Restart => (s.gameState == Playing && s.isPaused) || s.gameState == GameOverScreen
    case KeyPress(_) => true
  }

  /**
   * The invariant of reachable states: the playing and game-over screens
   * always have a car; the screens reached from the menu never do.
   */
  predicate Inv(s: AppState)
  {
    && (s.gameState in {Playing, GameOverScreen} ==> s.selectedCar.Some?)
    && (s.gameState in {Menu, CarSelectionScreen, LeaderboardScreen, AchievementsScreen} ==>
          s.selectedCar.None?)
    && s.gameState != PausedScreen
  }

  /** The state after a sequence of handlers. */
  function Run(s: AppState, actions: seq<Action>): AppState
    decreases |actions|
  {
    if actions == [] then s else Run(Step(s, actions[0]), actions[1..])
  }

  /** Every handler in the sequence is offered by the screen it meets. */
  predicate EnabledRun(s: AppState, actions: seq<Action>)
    decreases |actions|
  {
    actions == [] || (Enabled(s, actions[0]) && EnabledRun(Step(s, actions[0]), actions[1..]))
  }

  /** The initial state: menu, no car, score 0, three lives, level 1, running, day. */
  lemma InitialState()
    ensures Inv(Initial)
    ensures Initial.gameState == Menu && Initial.selectedCar.None?
    ensures Initial.score == 0 && Initial.lives == 3 && Initial.level == 1
    ensures !Initial.isPaused && Initial.isDayMode
  {
  }

  /** Every handler a screen offers keeps the invariant. */
  lemma StepKeepsInv(s: AppState, a: Action)
    requires Inv(s) && Enabled(s, a)
    ensures Inv(Step(s, a))
  {
  }

  /** Every state the app can reach satisfies the invariant. */
  lemma {:induction false} RunKeepsInv(s: AppState, actions: seq<Action>)
    requires Inv(s) && EnabledRun(s, actions)
    ensures Inv(Run(s, actions))
    decreases |actions|
  {
    if actions != [] {
      StepKeepsInv(s, actions[0]);
      RunKeepsInv(Step(s, actions[0]), actions[1..]);
    }
  }

  /**
   * `startGame` opens car selection when no car is chosen; otherwise it
   * enters play with a fresh score, three lives, level 1 and no pause.
   */
  lemma StartGameEffect(s: AppState)
    ensures var t := Step(s, StartGame);
      && (NoCar(s.selectedCar) ==> t == s.(gameState := CarSelectionScreen))
      && (!NoCar(s.selectedCar) ==>
            t.gameState == Playing && t.score == 0 && t.lives == 3 && t.level == 1 && !t.isPaused
            && t.selectedCar == s.selectedCar && t.isDayMode == s.isDayMode)
  {
  }

  /** From the menu of a reachable state, start always leads to car selection. */
  lemma StartFromMenuSelectsCar(s: AppState)
    requires Inv(s) && Enabled(s, StartGame)
    ensures Step(s, StartGame).gameState == CarSelectionScreen
  {
  }

  /** Choosing a car records it and enters play without resetting the counters. */
  lemma SelectCarEffect(s: AppState, id: string)
    ensures var t := Step(s, SelectCar(id));
      && t.selectedCar == Some(id) && t.gameState == Playing
      && t.score == s.score && t.lives == s.lives && t.level == s.level
      && t.isPaused == s.isPaused && t.isDayMode == s.isDayMode
  {
  }

  /** Restart resets the counters and pause, enters play and keeps the car. */
  lemma RestartEffect(s: AppState)
    ensures var t := Step(s, Restart);
      && t.gameState == Playing && t.score == 0 && t.lives == 3 && t.level == 1 && !t.isPaused
      && t.selectedCar == s.selectedCar && t.isDayMode == s.isDayMode
  {
  }

  /** Back-to-menu always clears the car; game over always shows the game-over screen. */
  lemma MenuAndGameOverEffect(s: AppState)
    ensures Step(s, BackToMenu).gameState == Menu && Step(s, BackToMenu).selectedCar.None?
    ensures Step(s, GameOver) == s.(gameState := GameOverScreen)
  {
  }

  /** Space toggles pause exactly while playing; any other key or screen changes nothing. */
  lemma KeyPressEffect(s: AppState, key: string)
    ensures Step(s, KeyPress(key)).isPaused != s.isPaused <==> key == " " && s.gameState == Playing
    ensures Step(s, KeyPress(key)) == s.(isPaused := Step(s, KeyPress(key)).isPaused)
  {
  }

  /** The same key pressed twice changes nothing. */
  lemma KeyPressTwice(s: AppState, key: string)
    ensures Step(Step(s, KeyPress(key)), KeyPress(key)) == s
  {
  }

  /** The day/night toggle negates day mode and nothing else; twice is no change. */
  lemma ToggleDayNightEffect(s: AppState)
    ensures Step(s, ToggleDayNight) == s.(isDayMode := !s.isDayMode)
    ensures Step(Step(s, ToggleDayNight), ToggleDayNight) == s
  {
  }

  class App {
    var gameState: GameState
    var selectedCar: Option<string>
    var score: int
    var lives: int
    var level: int
    var isPaused: bool
    var isDayMode: bool

    function State(): AppState
      reads this
    {
      AppState(gameState, selectedCar, score, lives, level, isPaused, isDayMode)
    }

    constructor ()
      ensures State() == Initial
    {
      gameState := Menu;
      selectedCar := None;
      score := 0;
      lives := 3;
      level := 1;
      isPaused := false;
      isDayMode := true;
    }

    method HandleKeyPress(key: string)
      modifies this
      ensures State() == Step(old(State()), KeyPress(key))
    {
      if key == " " && gameState == Playing {
        isPaused := !isPaused;
      }
    }

    method StartGame()
      modifies this
      ensures State() == Step(old(State()), Action.StartGame)
    {
      if selectedCar.None? || selectedCar.value == "" {
        gameState := CarSelectionScreen;
      } else {
        gameState := Playing;
        score := 0;
        lives := 3;
        level := 1;
        isPaused := false;
      }
    }

    method HandleCarSelect(carId: string)
      modifies this
      ensures State() == Step(old(State()), SelectCar(carId))
    {
      selectedCar := Some(carId);
      gameState := Playing;
    }

    method HandleGameOver()
      modifies this
      ensures State() == Step(old(State()), GameOver)
    {
      gameState := GameOverScreen;
    }

    method RestartGame()
      modifies this
      ensures State() == Step(old(State()), Restart)
    {
      score := 0;
      lives := 3;
      level := 1;
      isPaused := false;
      gameState := Playing;
    }

    method BackToMenu()
      modifies this
      ensures State() == Step(old(State()), Action.BackToMenu)
    {
      gameState := Menu;
      selectedCar := None;
    }

    method ShowLeaderboard()
      modifies this
      ensures State() == Step(old(State()), Action.ShowLeaderboard)
    {
      gameState := LeaderboardScreen;
    }

    method ShowAchievements()
      modifies this
      ensures State() == Step(old(State()), Action.ShowAchievements)
    {
      gameState := AchievementsScreen;
    }

    method ToggleDayNight()
      modifies this
      ensures State() == Step(old(State()), Action.ToggleDayNight)
    {
      isDayMode := !isDayMode;
    }

    /** The HUD pause button. */
    method TogglePause()
      modifies this
      ensures State() == Step(old(State()), HudPause)
    {
      isPaused := !isPaused;
    }

    /** The pause menu's resume button. */
    method Resume()
      modifies this
      ensures State() == Step(old(State()), Action.Resume)
    {
      isPaused := false;
    }

    /** The engine's `onScoreUpdate`, `onLivesUpdate` and `onLevelUpdate`. */
    method SetScore(n: int)
      modifies this
      ensures State() == Step(old(State()), ScoreUpdate(n))
    {
      score := n;
    }

    method SetLives(n: int)
      modifies this
      ensures State() == Step(old(State()), LivesUpdate(n))
    {
      lives := n;
    }

    method SetLevel(n: int)
      modifies this
      ensures State() == Step(old(State()), LevelUpdate(n))
    {
      level := n;
    }
  }
}
