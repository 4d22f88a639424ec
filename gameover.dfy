/** The numbers the game-over screen derives from the final score and the
    stored high score: the new-high-score banner, the high-score panel, the
    OBSTACLES and COINS figures and the encouragement message. Scores are
    whole numbers; Dafny's `/` on int rounds down for a positive divisor,
    which is what flooring the quotient does. */
module GameOver {

  /** The banner shows when the score equals the stored high score and is
      positive (the caller has already stored the score if it was higher). */
  predicate IsNewHighScore(score: int, highScore: int)
  {
    score == highScore && score > 0
  }

  /** The stored high score is shown unless the banner is. */
  predicate ShowsHighScorePanel(score: int, highScore: int)
  {
    !IsNewHighScore(score, highScore) && highScore > 0
  }

  /** OBSTACLES: the score divided by 10, rounded down. */
  function ObstaclesStat(score: int): (n: int)
    ensures 10 * n <= score < 10 * n + 10
  {
    score / 10
  }

  /** COINS: 0 for a score that is a multiple of 10, otherwise the score
      divided by 50, rounded down. */
  function CoinsStat(score: int): (n: int)
    ensures score % 10 == 0 ==> n == 0
    ensures score % 10 != 0 ==> 50 * n <= score < 50 * n + 50
  {
    if score % 10 == 0 then 0 else score / 50
  }

  const KeepPracticing := "Keep practicing! You'll get better!"
  const NiceJob := "Nice job! You're getting the hang of it!"
  const GreatDriving := "Great driving! Keep it up!"
  const Impressive := "Impressive skills! You're a pro!"
  const Legendary := "LEGENDARY! You're unstoppable!"

  /** The messages in order of the score bands they belong to. */
  const Messages := [KeepPracticing, NiceJob, GreatDriving, Impressive, Legendary]

  /** How many of the band thresholds 100, 500, 1000 and 2000 the score
      reaches. */
  function Tier(score: int): nat
  {
    (if score >= 100 then 1 else 0) + (if score >= 500 then 1 else 0) +
    (if score >= 1000 then 1 else 0) + (if score >= 2000 then 1 else 0)
  }

  /** The five independent conditions of the message area, each showing
      its message when it holds. Exactly one holds, and it is the message
      of the score's band. */
  function Encouragement(score: int): (shown: seq<string>)
    ensures |shown| == 1
    ensures Tier(score) < |Messages| && shown[0] == Messages[Tier(score)]
  {
    (if score < 100 then [KeepPracticing] else []) +
    (if score >= 100 && score < 500 then [NiceJob] else []) +
    (if score >= 500 && score < 1000 then [GreatDriving] else []) +
    (if score >= 1000 && score < 2000 then [Impressive] else []) +
    (if score >= 2000 then [Legendary] else [])
  }

  /** A higher score never earns a lower band's message. */
  lemma TierMonotone(a: int, b: int)
    requires a <= b
    ensures Tier(a) <= Tier(b)
  {
  }

  /** The banner and the high-score panel never show together, and with a
      positive high score exactly one of them shows. */
  lemma BannerOrPanel(score: int, highScore: int)
    ensures !(IsNewHighScore(score, highScore) && ShowsHighScorePanel(score, highScore))
    ensures highScore > 0 ==> IsNewHighScore(score, highScore) || ShowsHighScorePanel(score, highScore)
  {
  }

  /** A score made of `passed` dodges at 10 and `coins` pickups at 50 shows
      passed + 5 * coins obstacles: each coin reads as five obstacles. */
  lemma {:induction false} ObstaclesCountCoinsFiveTimes(passed: nat, coins: nat)
    ensures ObstaclesStat(10 * passed + 50 * coins) == passed + 5 * coins
  {
    var score := 10 * passed + 50 * coins;
    var n := ObstaclesStat(score);
    assert score == 10 * (passed + 5 * coins);
    assert 10 * n <= 10 * (passed + 5 * coins) < 10 * n + 10;
  }

  /** Such a score is a multiple of 10, so COINS shows 0 however many coins
      were collected. */
  lemma {:induction false} CoinsStatIgnoresCoins(passed: nat, coins: nat)
    ensures CoinsStat(10 * passed + 50 * coins) == 0
  {
    var score := 10 * passed + 50 * coins;
    assert score == 10 * (passed + 5 * coins);
    assert score % 10 == 0;
  }
}
