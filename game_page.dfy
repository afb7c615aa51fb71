/**
 * The game page: the session record `GameState`, the handlers that rebuild it,
 * the constellation fact shown between levels, and the page component's three
 * state cells (`gameState`, `showFactModal`, `currentFact`) with the controls
 * that drive them.
 */
module GamePage {
  import opened Scoring
  import FactModal

  datatype GameState = GameState(
    isPlaying: bool,
    isPaused: bool,
    score: int,
    accuracy: int,
    level: int,
    isWinner: bool)

  datatype Fact = Fact(constellation: string, fact: string, image: string)

  /** The facts shown between levels, one per constellation */
  const SpaceFacts: seq<Fact> := [
    Fact("Orion", "Orion is one of the most recognizable constellations in the night sky. It contains two of the brightest stars: Betelgeuse and Rigel.", "🌟"),
    Fact("Ursa Major", "Also known as the Big Dipper, this constellation has been used for navigation for thousands of years.", "⭐"),
    Fact("Cassiopeia", "This W-shaped constellation is named after a vain queen from Greek mythology who was placed in the sky as punishment.", "✨"),
    Fact("Leo", "The Lion constellation contains the bright star Regulus, which was considered one of the four 'royal stars' by ancient Persians.", "🦁"),
    Fact("Scorpius", "This constellation resembles a scorpion and contains the bright red star Antares, which means 'rival of Mars'.", "🦂")
  ]

  /** The state a session starts in */
  function InitialState(): (s: GameState)
    ensures !s.isPlaying && !s.isPaused && !s.isWinner
    ensures s.score == 0 && s.accuracy == 100 && s.level == 1
  {
    GameState(false, false, 0, 100, 1, false)
  }

  /** Start the level: playing, no win yet, score and accuracy back to 0 and 100 */
  function GameStart(s: GameState): (t: GameState)
    ensures t.isPlaying && !t.isWinner && t.score == 0 && t.accuracy == 100
    ensures t.level == s.level && t.isPaused == s.isPaused
  {
    s.(isPlaying := true, isWinner := false, score := 0, accuracy := 100)
  }

  /** The level's time is up: keep the result, stop playing, decide the win */
  function GameEnd(s: GameState, score: int, accuracy: int): (t: GameState)
    ensures t.isWinner <==> score >= RequiredScore(s.level) && accuracy >= MinAccuracy
    ensures !t.isPlaying && t.score == score && t.accuracy == accuracy
    ensures t.level == s.level && t.isPaused == s.isPaused
  {
    var minScoreRequired := 10 + (s.level - 1) * 10;
    var isWinner := score >= minScoreRequired && accuracy >= 60;
    s.(score := score, accuracy := accuracy, isPlaying := false, isWinner := isWinner)
  }

  /** The scene reports a win during play: record it, keep everything else */
  function WinnerAchieved(s: GameState, score: int, accuracy: int): (t: GameState)
    ensures t.isWinner && t.score == score && t.accuracy == accuracy
    ensures t.isPlaying == s.isPlaying && t.isPaused == s.isPaused && t.level == s.level
  {
    s.(score := score, accuracy := accuracy, isWinner := true)
  }

  function Pause(s: GameState): (t: GameState)
    ensures t.isPaused && t.(isPaused := s.isPaused) == s
  {
    s.(isPaused := true)
  }

  function Resume(s: GameState): (t: GameState)
    ensures !t.isPaused && t.(isPaused := s.isPaused) == s
  {
    s.(isPaused := false)
  }

  /** On to the next level: one level up, playing again with a fresh score */
  function NextLevel(s: GameState): (t: GameState)
    ensures t.level == s.level + 1
    ensures t.isPlaying && !t.isWinner && t.score == 0 && t.accuracy == 100
    ensures t.isPaused == s.isPaused
  {
    s.(level := s.level + 1, isPlaying := true, isWinner := false, score := 0, accuracy := 100)
  }

  /** Whether the page shows the play scene */
  predicate ShowsPlayScene(s: GameState) {
    s.isPlaying && !s.isPaused
  }

  /** How each handler changes whether the play scene is on the page */
  lemma PlaySceneVisibility(s: GameState, score: int, accuracy: int)
    ensures ShowsPlayScene(GameStart(s)) <==> !s.isPaused
    ensures !ShowsPlayScene(GameEnd(s, score, accuracy))
    ensures ShowsPlayScene(WinnerAchieved(s, score, accuracy)) <==> ShowsPlayScene(s)
    ensures !ShowsPlayScene(Pause(s))
    ensures ShowsPlayScene(Resume(s)) <==> s.isPlaying
    ensures ShowsPlayScene(NextLevel(s)) <==> !s.isPaused
  {
  }

  /** `(level - 1) % spaceFacts.length`: the fact shown after a level */
  function FactIndex(level: int): (i: nat)
    requires level >= 1
    ensures i < |SpaceFacts|
    ensures level <= |SpaceFacts| ==> i == level - 1
  {
    (level - 1) % |SpaceFacts|
  }

  /** Levels five apart show the same fact */
  lemma FactPeriodic(level: int)
    requires level >= 1
    ensures FactIndex(level + |SpaceFacts|) == FactIndex(level)
  {
  }

  /** The handlers, as events a session goes through */
  datatype Event =
    | Start
    | End(score: int, accuracy: int)
    | Won(score: int, accuracy: int)
    | PauseGame
    | ResumeGame
    | Advance

  function Apply(s: GameState, e: Event): GameState {
    match e
    case Start => GameStart(s)
    case End(score, accuracy) => GameEnd(s, score, accuracy)
    case Won(score, accuracy) => WinnerAchieved(s, score, accuracy)
    case PauseGame => Pause(s)
    case ResumeGame => Resume(s)
    case Advance => NextLevel(s)
  }

  /** The state after a sequence of handler calls */
  function Run(s: GameState, es: seq<Event>): GameState
    decreases |es|
  {
    if es == [] then s else Run(Apply(s, es[0]), es[1..])
  }

  function Advances(es: seq<Event>): (n: nat)
    ensures n <= |es|
  {
    if es == [] then 0 else (if es[0].Advance? then 1 else 0) + Advances(es[1..])
  }

  /**
   * Only the next-level handler writes the level, and it adds one: after any
   * sequence of handler calls the level has grown by the number of advances,
   * so it never decreases.
   */
  lemma {:induction false} RunLevel(s: GameState, es: seq<Event>)
    ensures Run(s, es).level == s.level + Advances(es)
    ensures Run(s, es).level >= s.level
    decreases |es|
  {
    if es != [] {
      RunLevel(Apply(s, es[0]), es[1..]);
    }
  }

  /** The controls the page offers the player */
  datatype Control =
    | StartLevel    // "Start Level" on the ready card
    | PauseButton   // "Pause" in the play scene's header
    | ResumeButton  // "Resume" in the header and on the paused card
    | ModalButton(b: FactModal.Button)

  class Page {
    var gameState: GameState
    var showFactModal: bool
    var currentFact: Fact

    /** The level stays positive, and an open modal shows the current level's fact */
    ghost predicate Valid()
      reads this
    {
      && gameState.level >= 1
      && (showFactModal ==> currentFact == SpaceFacts[FactIndex(gameState.level)])
    }

    constructor ()
      ensures Valid()
      ensures gameState == InitialState() && !showFactModal && currentFact == SpaceFacts[0]
    {
      gameState := InitialState();
      showFactModal := false;
      currentFact := SpaceFacts[0];
    }

    method HandleGameStart()
      requires Valid()
      modifies this`gameState
      ensures Valid() && gameState == GameStart(old(gameState))
    {
      gameState := GameStart(gameState);
    }

    method HandleGameEnd(score: int, accuracy: int)
      requires Valid()
      modifies this
      ensures Valid() && gameState == GameEnd(old(gameState), score, accuracy)
      ensures showFactModal && currentFact == SpaceFacts[FactIndex(old(gameState).level)]
    {
      var factIndex := FactIndex(gameState.level);
      gameState := GameEnd(gameState, score, accuracy);
      currentFact := SpaceFacts[factIndex];
      showFactModal := true;
    }

    method HandleWinnerAchieved(score: int, accuracy: int)
      requires Valid()
      modifies this
      ensures Valid() && gameState == WinnerAchieved(old(gameState), score, accuracy)
      ensures showFactModal && currentFact == SpaceFacts[FactIndex(old(gameState).level)]
    {
      var factIndex := FactIndex(gameState.level);
      gameState := WinnerAchieved(gameState, score, accuracy);
      currentFact := SpaceFacts[factIndex];
      showFactModal := true;
    }

    method HandlePause()
      requires Valid()
      modifies this`gameState
      ensures Valid() && gameState == Pause(old(gameState))
    {
      gameState := Pause(gameState);
    }

    method HandleResume()
      requires Valid()
      modifies this`gameState
      ensures Valid() && gameState == Resume(old(gameState))
    {
      gameState := Resume(gameState);
    }

    method HandleNextLevel()
      requires Valid()
      modifies this`gameState, this`showFactModal
      ensures Valid() && gameState == NextLevel(old(gameState)) && !showFactModal
    {
      showFactModal := false;
      gameState := NextLevel(gameState);
    }

    /** Whether the page currently shows a control */
    predicate Offered(c: Control)
      reads this
    {
      match c
      case StartLevel => !gameState.isPlaying && !showFactModal
      case PauseButton => ShowsPlayScene(gameState)
      case ResumeButton => gameState.isPaused
      case ModalButton(b) => showFactModal && b in FactModal.Buttons(gameState.isWinner)
    }

    /**
     * The player presses a control; nothing happens unless the page shows it.
     * Main Menu leaves the page (not modelled) and changes no state here.
     */
    method Press(c: Control) returns (taken: bool)
      requires Valid()
      modifies this`gameState, this`showFactModal
      ensures Valid()
      ensures taken == old(Offered(c))
      ensures !taken ==> gameState == old(gameState)
      ensures showFactModal == (old(showFactModal) && !(taken && c == ModalButton(FactModal.NextLevel)))
      ensures c == ModalButton(FactModal.NextLevel) ==>
                (taken <==> old(showFactModal) && old(gameState).isWinner)
      ensures gameState.level != old(gameState).level ==>
                c == ModalButton(FactModal.NextLevel) && old(gameState).isWinner
      ensures taken ==> match c
                        case StartLevel => gameState == GameStart(old(gameState))
                        case PauseButton => gameState == Pause(old(gameState))
                        case ResumeButton => gameState == Resume(old(gameState))
                        case ModalButton(b) =>
                          if b == FactModal.NextLevel then gameState == NextLevel(old(gameState))
                          else gameState == old(gameState)
    {
      taken := Offered(c);
      if taken {
        match c
        case StartLevel => HandleGameStart();
        case PauseButton => HandlePause();
        case ResumeButton => HandleResume();
        case ModalButton(b) =>
          if FactModal.Invokes(b) == FactModal.OnNext {
            HandleNextLevel();
          }
      }
    }
  }
}
