/** The game session of the `App` component as a state machine. The fields
    are the component's state (`score`, `activeHole`, `timeLeft`, `playing`,
    `paused`, `gameOver`, `moleSpeed`, `highScore`, `comboPopups`) and the
    `lastWhackRef` ref. Each event handler and each timer callback is a method
    the caller invokes; a pending timer is a flag plus what its callback
    captured. A callback captures the state of the render that created it, so
    a spawn chain (spawn, despawn, spawn, ...) keeps the active hole of the
    render that started it, and the countdown keeps the score of the render
    that started it. The
    countdown interval runs exactly while `playing` holds, so it needs no
    flag of its own. */
module Game {
  import opened Rules
  import opened Popups

  class Session {
    var score: int
    var activeHole: Option<int>
    var timeLeft: int
    var playing: bool
    var paused: bool
    var gameOver: bool
    var moleSpeed: int
    var highScore: int
    var lastWhack: int
    var popups: seq<Popup>

    // the spawn timer (`moleTimerRef`): pending, the speed popMole will get,
    // and the `activeHole` its closure holds, which popMole steers away from
    var spawnPending: bool
    var spawnSpeed: int
    var spawnExcludes: Option<int>
    // the despawn timer (`activeTimeoutRef`): pending, the speed it captured,
    // and the `activeHole` held by the chain that armed it, which the spawn
    // it schedules steers away from
    var despawnPending: bool
    var despawnSpeed: int
    var despawnExcludes: Option<int>
    // the `score` held by the countdown interval's closure, which the
    // high-score commit reads
    var countdownScore: int

    /** The session invariant. The run flags describe one of four phases
        (idle, running, paused, over); the clock is positive while a game is
        running or paused and 0 once it is over; the active hole is on the
        board; every speed, stored or captured by a timer, is in [300, 1200];
        no mole timer is pending while the Start button is shown; and while a
        spawn is pending the board is empty or shows the hole that spawn
        steers away from. */
    ghost predicate Valid()
      reads this
    {
      && !(playing && paused) && !(playing && gameOver) && !(paused && gameOver)
      && 0 <= score && 0 <= countdownScore
      && 0 <= timeLeft <= InitialTime
      && (playing || paused ==> 1 <= timeLeft)
      && (gameOver ==> timeLeft == 0)
      && (activeHole.Some? ==> 0 <= activeHole.value < Holes)
      && InSpeedRange(moleSpeed) && InSpeedRange(spawnSpeed) && InSpeedRange(despawnSpeed)
      && (!playing && !gameOver ==> !spawnPending && !despawnPending)
      && (spawnPending ==> activeHole == None || activeHole == spawnExcludes)
    }

    /** The component's first render, with the stored high score read in. */
    constructor (storedHighScore: int)
      ensures Valid()
      ensures score == 0 && activeHole == None && timeLeft == InitialTime
      ensures !playing && !paused && !gameOver
      ensures moleSpeed == InitialSpeed && highScore == storedHighScore
      ensures lastWhack == 0 && popups == []
      ensures !spawnPending && !despawnPending && countdownScore == 0
      ensures spawnSpeed == InitialSpeed && spawnExcludes == None
      ensures despawnSpeed == InitialSpeed && despawnExcludes == None
    {
      score := 0;
      activeHole := None;
      timeLeft := InitialTime;
      playing, paused, gameOver := false, false, false;
      moleSpeed := InitialSpeed;
      highScore := storedHighScore;
      lastWhack := 0;
      popups := [];
      spawnPending, spawnSpeed, spawnExcludes := false, InitialSpeed, None;
      despawnPending, despawnSpeed, despawnExcludes := false, InitialSpeed, None;
      countdownScore := 0;
    }

    /** `scheduleNextMole(speed)` as seen from a render whose `activeHole`
        is excludes: replace the pending spawn by one that will pop a mole
        with the given speed, away from excludes, after the returned delay. */
    method ScheduleNextMole(speed: int, excludes: Option<int>, u: real) returns (gap: int)
      requires InSpeedRange(speed) && 0.0 <= u < 1.0
      modifies this`spawnPending, this`spawnSpeed, this`spawnExcludes
      ensures spawnPending && spawnSpeed == speed && spawnExcludes == excludes
      ensures gap == SpawnGap(speed, u) && gap >= MinGap
    {
      gap := SpawnGap(speed, u);
      spawnPending, spawnSpeed, spawnExcludes := true, speed, excludes;
    }

    /** The body of `startGame`: a fresh running game at speed 900 with the
        first spawn scheduled. It does not touch the despawn timer. The new
        spawn chain and countdown hold the active hole and the score of the
        render in which the button was clicked, that is, from before the
        reset. */
    method Begin(u: real) returns (gap: int)
      requires Valid() && 0.0 <= u < 1.0
      modifies this
      ensures Valid()
      ensures score == 0 && timeLeft == InitialTime && moleSpeed == InitialSpeed
      ensures !gameOver && playing && !paused
      ensures activeHole == None && lastWhack == 0
      ensures spawnPending && spawnSpeed == InitialSpeed && spawnExcludes == old(activeHole)
      ensures countdownScore == old(score)
      ensures gap == SpawnGap(InitialSpeed, u) && gap >= MinGap
      ensures highScore == old(highScore) && popups == old(popups)
      ensures despawnPending == old(despawnPending) && despawnSpeed == old(despawnSpeed)
      ensures despawnExcludes == old(despawnExcludes)
    {
      var clicked := activeHole;
      countdownScore := score;
      score := 0;
      timeLeft := InitialTime;
      moleSpeed := InitialSpeed;
      gameOver := false;
      playing := true;
      paused := false;
      activeHole := None;
      lastWhack := 0;
      gap := ScheduleNextMole(InitialSpeed, clicked, u);
    }

    /** The Start button, shown only while neither playing nor over. */
    method StartGame(u: real) returns (gap: int)
      requires Valid() && !playing && !gameOver && 0.0 <= u < 1.0
      modifies this
      ensures Valid()
      ensures score == 0 && timeLeft == InitialTime && moleSpeed == InitialSpeed
      ensures !gameOver && playing && !paused
      ensures activeHole == None && lastWhack == 0
      ensures spawnPending && spawnSpeed == InitialSpeed && spawnExcludes == old(activeHole)
      ensures !despawnPending && despawnSpeed == old(despawnSpeed)
      ensures despawnExcludes == old(despawnExcludes)
      ensures countdownScore == old(score)
      ensures gap == SpawnGap(InitialSpeed, u) && gap >= MinGap
      ensures highScore == old(highScore) && popups == old(popups)
    {
      gap := Begin(u);
    }

    /** The Restart button, shown always: cancel every mole timer, then
        start afresh. */
    method RestartGame(u: real) returns (gap: int)
      requires Valid() && 0.0 <= u < 1.0
      modifies this
      ensures Valid()
      ensures score == 0 && timeLeft == InitialTime && moleSpeed == InitialSpeed
      ensures !gameOver && playing && !paused
      ensures activeHole == None && lastWhack == 0
      ensures spawnPending && spawnSpeed == InitialSpeed && spawnExcludes == old(activeHole)
      ensures !despawnPending && despawnSpeed == old(despawnSpeed)
      ensures despawnExcludes == old(despawnExcludes)
      ensures countdownScore == old(score)
      ensures gap == SpawnGap(InitialSpeed, u) && gap >= MinGap
      ensures highScore == old(highScore) && popups == old(popups)
    {
      spawnPending := false;
      despawnPending := false;
      gap := Begin(u);
    }

    /** The Pause button, shown while playing and not paused: freeze the
        game and cancel every timer. Score, clock, speed and the mole on
        the board stay as they are. */
    method PauseGame()
      requires Valid() && playing && !paused
      modifies this`paused, this`playing, this`spawnPending, this`despawnPending
      ensures Valid()
      ensures paused && !playing && !spawnPending && !despawnPending
    {
      paused := true;
      playing := false;
      spawnPending := false;
      despawnPending := false;
    }

    /** The Resume button, shown while paused: run again, schedule a spawn
        at the current speed and restart the countdown, both holding the
        current active hole and score. */
    method ResumeGame(u: real) returns (gap: int)
      requires Valid() && paused && 0.0 <= u < 1.0
      modifies this`paused, this`playing, this`spawnPending, this`spawnSpeed, this`spawnExcludes,
        this`countdownScore
      ensures Valid()
      ensures !paused && playing
      ensures spawnPending && spawnSpeed == moleSpeed && spawnExcludes == activeHole
      ensures countdownScore == score
      ensures gap == SpawnGap(moleSpeed, u) && gap >= MinGap
    {
      paused := false;
      playing := true;
      gap := ScheduleNextMole(moleSpeed, activeHole, u);
      countdownScore := score;
    }

    /** `showComboPopup(hole, text)`: add a label over the hole. */
    method ShowComboPopup(hole: int, text: string, id: string)
      requires Valid() && 0 <= hole
      modifies this`popups
      ensures Valid()
      ensures popups == old(popups) + [Popup(id, PopupPosition(hole).x, PopupPosition(hole).y, text)]
    {
      var pos := PopupPosition(hole);
      popups := popups + [Popup(id, pos.x, pos.y, text)];
    }

    /** The label timer firing: drop the labels with that id. */
    method ExpirePopup(id: string)
      requires Valid()
      modifies this`popups
      ensures Valid()
      ensures popups == WithoutId(old(popups), id)
    {
      popups := WithoutId(popups, id);
    }

    /** `handleWhack(index)` at time now. Ignored unless a game is running.
        A whack on the active hole scores 1 point, or 2 inside the combo
        window, takes the mole down, speeds the game up, shows a label and
        starts a new spawn chain that holds the hole just hit as active. It
        does not cancel the despawn timer of the mole it hit; if that fires
        first, its older chain replaces the new spawn. Any other whack
        is a miss, which only slows the game down. Returns the delay of the
        spawn it scheduled. */
    method HandleWhack(index: int, now: int, popupId: string, u: real) returns (gap: Option<int>)
      requires Valid() && 0.0 <= u < 1.0
      modifies this
      ensures Valid()
      ensures old(score) <= score <= old(score) + 2
      ensures !old(playing) || old(paused) ==> unchanged(this) && gap == None
      ensures old(playing) && !old(paused) && old(activeHole) == Some(index) ==>
        && score == old(score) + Points(now, old(lastWhack))
        && lastWhack == now
        && activeHole == None
        && moleSpeed == SpeedAfterHit(old(moleSpeed))
        && popups == old(popups) + [ComboPopup(popupId, index, Points(now, old(lastWhack)))]
        && spawnPending && spawnSpeed == HitScheduleSpeed(old(moleSpeed)) && spawnExcludes == Some(index)
        && gap == Some(SpawnGap(spawnSpeed, u))
        && countdownScore == old(countdownScore)
        && timeLeft == old(timeLeft) && highScore == old(highScore)
        && playing && !paused && !gameOver
        && despawnPending == old(despawnPending) && despawnSpeed == old(despawnSpeed)
        && despawnExcludes == old(despawnExcludes)
      ensures old(playing) && !old(paused) && old(activeHole) != Some(index) ==>
        && moleSpeed == SpeedAfterMiss(old(moleSpeed))
        && score == old(score) && lastWhack == old(lastWhack) && activeHole == old(activeHole)
        && popups == old(popups) && timeLeft == old(timeLeft) && highScore == old(highScore)
        && playing && !paused && !gameOver
        && spawnPending == old(spawnPending) && spawnSpeed == old(spawnSpeed)
        && spawnExcludes == old(spawnExcludes)
        && despawnPending == old(despawnPending) && despawnSpeed == old(despawnSpeed)
        && despawnExcludes == old(despawnExcludes)
        && countdownScore == old(countdownScore)
        && gap == None
    {
      if !playing || paused {
        return None;
      }
      if activeHole == Some(index) {
        var points := Points(now, lastWhack);
        lastWhack := now;
        var before := moleSpeed;
        score := score + points;
        activeHole := None;
        moleSpeed := SpeedAfterHit(moleSpeed);
        ShowComboPopup(index, ComboText(points), popupId);
        var g := ScheduleNextMole(HitScheduleSpeed(before), Some(index), u);
        gap := Some(g);
      } else {
        moleSpeed := SpeedAfterMiss(moleSpeed);
        gap := None;
      }
    }

    /** The spawn timer firing: `popMole(spawnSpeed)`. Show a new mole on a
        hole other than the one the chain's closure holds as active, and arm
        the despawn timer of the same chain, with the same speed and the same
        held hole; returns how long the mole stays up. The board shows no
        other mole then, so the new mole is on a new hole. The source does
        not cancel this timer at game over, so moles keep coming then too. */
    method SpawnMole(u: real, scaled: int) returns (visible: int)
      requires Valid() && spawnPending && 0.0 <= u < 1.0
      modifies this`activeHole, this`spawnPending, this`despawnPending, this`despawnSpeed,
        this`despawnExcludes
      ensures Valid()
      ensures activeHole == Some(NextHole(u, spawnExcludes))
      ensures activeHole != old(activeHole) && activeHole != spawnExcludes
      ensures visible == VisibleFor(scaled) && visible >= MinVisible
      ensures !spawnPending && despawnPending && despawnSpeed == spawnSpeed
      ensures despawnExcludes == spawnExcludes
    {
      activeHole := Some(NextHole(u, spawnExcludes));
      visible := VisibleFor(scaled);
      spawnPending := false;
      despawnPending, despawnSpeed, despawnExcludes := true, spawnSpeed, spawnExcludes;
    }

    /** The despawn timer firing: the mole goes down unhit, the speed becomes
        12 ms faster than the one the mole was spawned with, and the chain
        that armed this timer schedules the next spawn at that speed, holding
        its own active hole. That replaces any spawn pending, including one a
        hit scheduled away from the hole it hit. */
    method DespawnMole(u: real) returns (gap: int)
      requires Valid() && despawnPending && 0.0 <= u < 1.0
      modifies this`activeHole, this`moleSpeed, this`despawnPending, this`spawnPending, this`spawnSpeed,
        this`spawnExcludes
      ensures Valid()
      ensures activeHole == None
      ensures moleSpeed == SpeedAfterDespawn(old(despawnSpeed))
      ensures !despawnPending && spawnPending && spawnSpeed == moleSpeed
      ensures spawnExcludes == old(despawnExcludes)
      ensures gap == SpawnGap(moleSpeed, u) && gap >= MinGap
    {
      activeHole := None;
      var nextSpeed := SpeedAfterDespawn(despawnSpeed);
      moleSpeed := nextSpeed;
      despawnPending := false;
      gap := ScheduleNextMole(nextSpeed, despawnExcludes, u);
    }

    /** One beat of the countdown interval, which runs while playing. The
        clock goes down by one; on the last second the game is over, the
        board is cleared and the high score becomes the larger of the stored
        one and the score the countdown's closure holds, which is the score
        when Start, Restart or Resume was clicked, not the final score.
        Returns whether the new high score is stored, which happens only
        when that score beats it. */
    method Tick() returns (stored: bool)
      requires Valid() && playing
      modifies this`timeLeft, this`playing, this`gameOver, this`activeHole, this`highScore
      ensures Valid()
      ensures timeLeft == TickTime(old(timeLeft))
      ensures old(timeLeft) > 1 ==>
        playing && !gameOver && activeHole == old(activeHole) && highScore == old(highScore) && !stored
      ensures old(timeLeft) <= 1 ==>
        && timeLeft == 0 && !playing && gameOver && activeHole == None
        && highScore == NewHighScore(old(highScore), countdownScore)
        && stored == (countdownScore > old(highScore))
    {
      var t := timeLeft;
      timeLeft := TickTime(t);
      stored := false;
      if t <= 1 {
        playing := false;
        gameOver := true;
        activeHole := None;
        stored := countdownScore > highScore;
        highScore := NewHighScore(highScore, countdownScore);
      }
    }
  }
}
