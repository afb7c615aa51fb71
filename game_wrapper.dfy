/**
 * The play scene of one level attempt: the counters the scene keeps in closure
 * variables and the way a shot, a bullet hitting a star and a frame tick update
 * them. The game engine becomes the caller of these three events; what the
 * scene hands to its callbacks (`onWinnerAchieved`, `onGameEnd`) is recorded in
 * ghost fields.
 */
module GameWrapper {
  import opened Scoring

  /** Points a bullet-star collision is worth */
  const PointsPerHit: nat := 10
  /** A level ends once more than this many milliseconds have passed */
  const LevelDuration: nat := 30000
  /** A new star appears once more than this many milliseconds have gathered */
  const StarSpawnInterval: nat := 1000

  class PlayScene {
    /** The level being played (the `currentLevel` property) */
    const level: int
    /** The "Target" figure shown in the scene's corner */
    const target: int

    // the scene's closure variables
    var shotsFired: nat
    var shotsHit: nat
    var currentScore: nat
    var winnerAchieved: bool
    var gameTime: nat
    var levelTime: nat
    var starSpawnTimer: nat
    /** Bullets in the scene's bullet group: fired and not yet destroyed by a collision */
    var liveBullets: nat

    // the component's displayed state (`setScore`, `setAccuracy`, `setTime`)
    var score: int
    var accuracy: int
    var time: int

    /** The (score, accuracy) pairs handed to `onWinnerAchieved`, in order */
    ghost var winnerReports: seq<(int, int)>
    /** How often `onGameEnd` has been called */
    ghost var endCalls: nat

    ghost predicate Valid()
      reads this
    {
      && target == RequiredScore(level)
      && shotsHit + liveBullets == shotsFired
      && currentScore == PointsPerHit * shotsHit
      && levelTime == gameTime
      && starSpawnTimer <= StarSpawnInterval
      && time == gameTime / 1000
      && score == currentScore
      && accuracy == (if shotsFired == 0 then 100 else Accuracy(shotsHit, shotsFired))
      && 0 <= accuracy <= 100
      && |winnerReports| == (if winnerAchieved then 1 else 0)
      && (forall r :: r in winnerReports ==> MeetsWinCondition(r.0, r.1, level))
      && (endCalls > 0 ==> levelTime > LevelDuration)
    }

    /** The scene's `create`: every timer, counter and the win latch start from zero */
    constructor Create(currentLevel: int)
      ensures Valid()
      ensures level == currentLevel && target == 10 + (currentLevel - 1) * 10
      ensures shotsFired == 0 && shotsHit == 0 && currentScore == 0 && liveBullets == 0
      ensures !winnerAchieved && gameTime == 0 && levelTime == 0 && starSpawnTimer == 0
      ensures score == 0 && accuracy == 100 && time == 0
      ensures winnerReports == [] && endCalls == 0
    {
      level := currentLevel;
      target := RequiredScore(currentLevel);
      gameTime, levelTime, starSpawnTimer := 0, 0, 0;
      winnerAchieved := false;
      liveBullets := 0;
      currentScore := 0;
      shotsFired, shotsHit := 0, 0;
      score, time, accuracy := 0, 0, 100;
      winnerReports, endCalls := [], 0;
    }

    /**
     * A shot, from the mouse-click handler or from the UP-key handler (the two
     * handlers do the same): one more bullet and one more shot fired, and the
     * displayed accuracy recomputed. Score and hits do not change.
     */
    method Fire() returns (shown: int)
      requires Valid()
      modifies this`shotsFired, this`liveBullets, this`accuracy
      ensures Valid()
      ensures shotsFired == old(shotsFired) + 1 && liveBullets == old(liveBullets) + 1
      ensures shown == accuracy == Accuracy(shotsHit, shotsFired)
      ensures 0 <= shown <= 100
    {
      liveBullets := liveBullets + 1;
      shotsFired := shotsFired + 1;
      shown := Accuracy(shotsHit, shotsFired);
      accuracy := shown;
    }

    /**
     * A bullet meets a star: both are destroyed, the score grows by 10 and the
     * hits by 1, and the win branch is taken exactly when the level's target
     * and 60% accuracy are reached for the first time in this level.
     */
    method Hit() returns (won: bool)
      requires Valid()
      requires liveBullets > 0
      modifies this`currentScore, this`shotsHit, this`liveBullets, this`score, this`accuracy
      modifies this`winnerAchieved, this`winnerReports
      ensures Valid()
      ensures currentScore == old(currentScore) + PointsPerHit && shotsHit == old(shotsHit) + 1
      ensures liveBullets == old(liveBullets) - 1
      ensures score == currentScore && accuracy == Accuracy(shotsHit, shotsFired)
      ensures won <==> currentScore >= 10 + (level - 1) * 10 && accuracy >= 60 && !old(winnerAchieved)
      ensures winnerAchieved == (old(winnerAchieved) || won)
      ensures winnerReports == old(winnerReports) + (if won then [(currentScore, accuracy)] else [])
    {
      liveBullets := liveBullets - 1;
      currentScore := currentScore + PointsPerHit;
      shotsHit := shotsHit + 1;
      var newAccuracy := Accuracy(shotsHit, shotsFired);
      score := currentScore;
      accuracy := newAccuracy;
      var minScoreRequired := RequiredScore(level);
      won := currentScore >= minScoreRequired && newAccuracy >= MinAccuracy && !winnerAchieved;
      if won {
        winnerAchieved := true;
        winnerReports := winnerReports + [(currentScore, newAccuracy)];
      }
    }

    /**
     * One frame of `update`, `delta` milliseconds after the previous one: the
     * clocks advance, the shown seconds follow the game clock, a star spawns
     * when the spawn timer has gathered more than a second, and `onGameEnd` is
     * called on every frame once the level has run for more than 30 seconds.
     */
    method Tick(delta: nat) returns (spawned: bool, ended: bool)
      requires Valid()
      modifies this`gameTime, this`levelTime, this`time, this`starSpawnTimer, this`endCalls
      ensures Valid()
      ensures gameTime == old(gameTime) + delta && levelTime == old(levelTime) + delta
      ensures time == gameTime / 1000
      ensures spawned <==> old(starSpawnTimer) + delta > StarSpawnInterval
      ensures starSpawnTimer == if spawned then 0 else old(starSpawnTimer) + delta
      ensures ended <==> levelTime > LevelDuration
      ensures endCalls == old(endCalls) + (if ended then 1 else 0)
    {
      gameTime := gameTime + delta;
      levelTime := levelTime + delta;
      time := gameTime / 1000;
      starSpawnTimer := starSpawnTimer + delta;
      spawned := starSpawnTimer > StarSpawnInterval;
      if spawned {
        starSpawnTimer := 0;
      }
      ended := levelTime > LevelDuration;
      if ended {
        endCalls := endCalls + 1;
      }
    }
  }
}
