/** Clients of the session: what a caller can conclude from the operations'
    contracts alone about whole games. */
module Scenarios {
  import opened Rules
  import opened Game

  /** Thirty beats of the countdown from a fresh start end the game, with
      the score untouched and the score the countdown holds committed. */
  method RunOutTheClock(g: Session) returns (stored: bool)
    requires g.Valid() && g.playing && g.timeLeft == InitialTime
    modifies g
    ensures g.Valid()
    ensures g.gameOver && !g.playing && g.timeLeft == 0 && g.activeHole == None
    ensures g.score == old(g.score) && g.countdownScore == old(g.countdownScore)
    ensures g.highScore == NewHighScore(old(g.highScore), g.countdownScore)
    ensures stored == (g.countdownScore > old(g.highScore))
  {
    var i := 0;
    stored := false;
    while i < InitialTime
      invariant 0 <= i <= InitialTime
      invariant g.Valid() && g.score == old(g.score) && g.countdownScore == old(g.countdownScore)
      invariant i < InitialTime ==> g.playing && g.timeLeft == InitialTime - i
      invariant i < InitialTime ==> g.highScore == old(g.highScore)
      invariant i == InitialTime ==>
        && g.gameOver && !g.playing && g.timeLeft == 0 && g.activeHole == None
        && g.highScore == NewHighScore(old(g.highScore), g.countdownScore)
        && stored == (g.countdownScore > old(g.highScore))
    {
      stored := g.Tick();
      i := i + 1;
    }
  }

  /** A whole game from the first render: Start, then the clock runs out
      with no whack. The final score is 0, so the stored high score stays. */
  method PlayIdleGame(storedHighScore: int, u: real) returns (g: Session)
    requires 0 <= storedHighScore && 0.0 <= u < 1.0
    ensures g.Valid() && g.gameOver && g.score == 0 && g.highScore == storedHighScore
  {
    g := new Session(storedHighScore);
    var gap := g.StartGame(u);
    var stored := RunOutTheClock(g);
    assert !stored;
  }

  /** Pausing and at once resuming keeps the score, the clock, the speed and
      the mole on the board. */
  method PauseThenResume(g: Session, u: real) returns (gap: int)
    requires g.Valid() && g.playing && !g.paused && 0.0 <= u < 1.0
    modifies g
    ensures g.Valid() && g.playing && !g.paused
    ensures g.score == old(g.score) && g.timeLeft == old(g.timeLeft)
    ensures g.moleSpeed == old(g.moleSpeed) && g.activeHole == old(g.activeHole)
    ensures g.highScore == old(g.highScore) && g.lastWhack == old(g.lastWhack)
  {
    g.PauseGame();
    gap := g.ResumeGame(u);
  }

  /** Every whack after the game is over is ignored. */
  method WhackAfterGameOver(g: Session, index: int, now: int, id: string, u: real)
    requires g.Valid() && g.gameOver && 0.0 <= u < 1.0
    modifies g
    ensures g.score == old(g.score) && g.moleSpeed == old(g.moleSpeed)
    ensures g.activeHole == old(g.activeHole) && g.popups == old(g.popups)
    ensures unchanged(g)
  {
    var gap := g.HandleWhack(index, now, id, u);
  }

  /** A hit, the next mole on hole 3, and a second hit less than 550 ms
      later: the second hit earns the combo's 2 points. The spawn after a hit
      steers away from the hole just hit, so the first hole is not 3. */
  method ComboOnSecondHit(g: Session, first: int, now1: int, now2: int, u: real) returns (gained: int)
    requires g.Valid() && g.playing && !g.paused && g.activeHole == Some(first)
    requires first != 3 && 0 <= now2 - now1 < ComboWindow && 0.0 <= u < 1.0
    modifies g
    ensures g.Valid()
    ensures gained == g.score - old(g.score)
    ensures gained == Points(now1, old(g.lastWhack)) + 2
  {
    var before := g.score;
    var gap := g.HandleWhack(first, now1, "a", u);
    NextHoleReaches(3, Some(first));
    var visible := g.SpawnMole(3.0 / 9.0, 0);
    gap := g.HandleWhack(3, now2, "b", u);
    gained := g.score - before;
  }

  /** A hit does not cancel the despawn timer of the mole it hit. When that
      timer fires before the spawn the hit scheduled, the older chain's
      spawn replaces it, and that chain holds no active hole: here the mole
      on hole 0 is hit and the next mole comes up on hole 0 again. */
  method HitHoleCanComeBack(now: int, u: real) returns (g: Session)
    requires 0.0 <= u < 1.0
    ensures g.Valid() && g.playing
    ensures g.score == Points(now, 0) && g.activeHole == Some(0)
  {
    g := new Session(0);
    var gap := g.StartGame(u);
    var visible := g.SpawnMole(0.0, 0);
    assert g.activeHole == Some(0);
    var hit := g.HandleWhack(0, now, "a", u);
    assert g.spawnExcludes == Some(0) && g.despawnPending;
    gap := g.DespawnMole(u);
    visible := g.SpawnMole(0.0, 0);
  }

  /** The first game after the page loads never raises the high score: its
      countdown holds the score from before Start was clicked, which is 0.
      Here one hit scores against a stored high score of 0, and after the
      clock runs out the high score is still 0 and nothing is stored, where
      committing the final score would have raised it. */
  method FirstGameKeepsHighScore(now: int, u: real) returns (g: Session, stored: bool)
    requires 0.0 <= u < 1.0
    ensures g.Valid() && g.gameOver
    ensures g.score == Points(now, 0) >= 1 && g.highScore == 0 && !stored
    ensures NewHighScore(0, g.score) == g.score > g.highScore
  {
    g := new Session(0);
    var gap := g.StartGame(u);
    var visible := g.SpawnMole(0.0, 0);
    assert g.activeHole == Some(0);
    var hit := g.HandleWhack(0, now, "a", u);
    stored := RunOutTheClock(g);
  }

  /** Play Again after a game over: the next game's countdown holds the
      previous game's final score, so that score is what it commits. */
  method NextGameCommitsPreviousScore(g: Session, u: real) returns (stored: bool)
    requires g.Valid() && g.gameOver && 0.0 <= u < 1.0
    modifies g
    ensures g.Valid() && g.gameOver && g.score == 0
    ensures g.highScore == NewHighScore(old(g.highScore), old(g.score))
    ensures stored == (old(g.score) > old(g.highScore))
  {
    var gap := g.RestartGame(u);
    stored := RunOutTheClock(g);
  }
}
