/** The pure rules of one whack-a-mole session in the `App` component:
    the game constants, the random helpers, the difficulty clamps, the combo
    rule, the countdown step and the high-score commit. The session state
    machine in module Game applies these rules; nothing here has state. */
module Rules {

  datatype Option<T> = None | Some(value: T)

  const Holes: int := 9
  const InitialTime: int := 30        // seconds on the clock at start
  const InitialSpeed: int := 900      // mole speed (ms) at start
  const MinSpeed: int := 300          // floor of the despawn step
  const HitFloor: int := 320          // floor of the hit step
  const MaxSpeed: int := 1200         // ceiling of the miss step
  const ComboWindow: int := 550       // ms between hits that earn the combo bonus
  const MinGap: int := 150            // shortest delay before the next spawn
  const MinVisible: int := 350        // shortest time a mole stays up

  function Max(a: int, b: int): int { if a < b then b else a }
  function Min(a: int, b: int): int { if a < b then a else b }

  /** The band every stored and scheduled mole speed stays in. */
  predicate InSpeedRange(s: int) { MinSpeed <= s <= MaxSpeed }

  /** Scaling a random draw in [0, 1) by a positive n and flooring it
      gives one of 0 .. n-1. */
  lemma ScaledFloorInRange(u: real, n: int)
    requires 0.0 <= u < 1.0
    ensures 0 < n ==> 0 <= (u * (n as real)).Floor < n
  {
    if 0 < n {
      assert 0.0 <= u * (n as real);
      assert (1.0 - u) * (n as real) > 0.0;
    }
  }

  /** `rnd(min, max)`: a random integer between lo and hi inclusive, from a
      draw u of `Math.random`. */
  function Rnd(u: real, lo: int, hi: int): (r: int)
    requires 0.0 <= u < 1.0
    ensures lo <= hi ==> lo <= r <= hi
  {
    ScaledFloorInRange(u, hi - lo + 1);
    (u * ((hi - lo + 1) as real)).Floor + lo
  }

  /** The hole `popMole` shows next: a random hole, moved on by one (wrapping)
      when it is the hole that is already active. */
  function NextHole(u: real, active: Option<int>): (h: nat)
    requires 0.0 <= u < 1.0
    ensures h < Holes
    ensures active != Some(h)
  {
    ScaledFloorInRange(u, Holes);
    var idx := (u * (Holes as real)).Floor;
    if active == Some(idx) then (idx + 1) % Holes else idx
  }

  /** Every hole other than the active one can come up next: the draw
      h / 9 picks hole h. */
  lemma NextHoleReaches(h: int, active: Option<int>)
    requires 0 <= h < Holes && active != Some(h)
    ensures 0.0 <= (h as real) / (Holes as real) < 1.0
    ensures NextHole((h as real) / (Holes as real), active) == h
  {
  }

  /** How long a mole stays up: the rounded product of its speed and a random
      factor, but never less than 350 ms. */
  function VisibleFor(scaled: int): (r: int)
    ensures r >= MinVisible && r >= scaled
    ensures r == MinVisible || r == scaled
  {
    Max(MinVisible, scaled)
  }

  /** `scheduleNextMole`'s delay: the speed jittered by rnd(-120, 180), but
      never less than 150 ms. */
  function SpawnGap(speed: int, u: real): (gap: int)
    requires 0.0 <= u < 1.0
    ensures gap >= MinGap
    ensures speed - 120 <= gap <= Max(MinGap, speed + 180)
    ensures InSpeedRange(speed) ==> speed - 120 <= gap <= speed + 180
  {
    Max(MinGap, speed + Rnd(u, -120, 180))
  }

  /** The stored speed after a hit: 24 ms faster, but not below 320 ms.
      From a speed under 320 (reachable through despawns) a hit slows the
      game down to 320. */
  function SpeedAfterHit(s: int): (r: int)
    ensures r >= HitFloor && r >= s - 24
    ensures r == HitFloor || r == s - 24
    ensures s < HitFloor ==> r > s
    ensures InSpeedRange(s) ==> InSpeedRange(r)
  {
    Max(HitFloor, s - 24)
  }

  /** The speed the hit path schedules the next spawn with: 40 ms faster than
      the speed before the hit, not below 320, so never slower than the
      speed the hit stores. */
  function HitScheduleSpeed(s: int): (r: int)
    ensures r >= HitFloor && r >= s - 40
    ensures r == HitFloor || r == s - 40
    ensures r <= SpeedAfterHit(s)
    ensures InSpeedRange(s) ==> InSpeedRange(r)
  {
    Max(HitFloor, s - 40)
  }

  /** The stored speed after a miss: 12 ms slower, but not above 1200 ms. */
  function SpeedAfterMiss(s: int): (r: int)
    ensures r <= MaxSpeed && r <= s + 12
    ensures r == MaxSpeed || r == s + 12
    ensures s <= MaxSpeed ==> r >= s
    ensures InSpeedRange(s) ==> InSpeedRange(r)
  {
    Min(MaxSpeed, s + 12)
  }

  /** The stored speed after a mole goes down unhit: 12 ms faster than the
      speed it was spawned with, but not below 300 ms. */
  function SpeedAfterDespawn(s: int): (r: int)
    ensures r >= MinSpeed && r >= s - 12
    ensures r == MinSpeed || r == s - 12
    ensures InSpeedRange(s) ==> InSpeedRange(r)
  {
    Max(MinSpeed, s - 12)
  }

  /** The three events that move the mole speed. A hit and a miss adjust
      the stored speed; a despawn replaces it with a step from the speed its
      mole was spawned with, which the despawn timer captured. */
  datatype SpeedEvent = Hit | Miss | Despawn(spawnedAt: int)

  function ApplySpeedEvent(s: int, e: SpeedEvent): int
  {
    match e
    case Hit => SpeedAfterHit(s)
    case Miss => SpeedAfterMiss(s)
    case Despawn(spawnedAt) => SpeedAfterDespawn(spawnedAt)
  }

  /** The speed after a run of events, applied in order. */
  function SpeedAfter(s: int, events: seq<SpeedEvent>): int
    decreases |events|
  {
    if events == [] then s
    else SpeedAfter(ApplySpeedEvent(s, events[0]), events[1..])
  }

  /** Whatever the player does, the speed stays within [300, 1200], as long
      as every despawning mole was spawned at a speed in that range (every
      scheduled speed is one, see Game.Session.Valid). */
  lemma {:induction false} SpeedStaysInRange(s: int, events: seq<SpeedEvent>)
    requires InSpeedRange(s)
    requires forall i :: 0 <= i < |events| && events[i].Despawn? ==> InSpeedRange(events[i].spawnedAt)
    ensures InSpeedRange(SpeedAfter(s, events))
    decreases |events|
  {
    if events != [] {
      SpeedStaysInRange(ApplySpeedEvent(s, events[0]), events[1..]);
    }
  }

  /** Misses alone never speed the game up. */
  lemma {:induction false} MissesNeverSpeedUp(s: int, events: seq<SpeedEvent>)
    requires s <= MaxSpeed
    requires forall i :: 0 <= i < |events| ==> events[i] == Miss
    ensures s <= SpeedAfter(s, events) <= MaxSpeed
    decreases |events|
  {
    if events != [] {
      MissesNeverSpeedUp(SpeedAfterMiss(s), events[1..]);
    }
  }

  /** Hits alone, from a speed of 320 ms or more, never slow the game down
      and never take it below 320 ms. */
  lemma {:induction false} HitsNeverSlowDown(s: int, events: seq<SpeedEvent>)
    requires s >= HitFloor
    requires forall i :: 0 <= i < |events| ==> events[i] == Hit
    ensures HitFloor <= SpeedAfter(s, events) <= s
    decreases |events|
  {
    if events != [] {
      HitsNeverSlowDown(SpeedAfterHit(s), events[1..]);
    }
  }

  /** Points for a hit at time now when the previous hit was at last:
      2 inside the combo window, 1 otherwise. */
  function Points(now: int, last: int): (p: int)
    ensures p == 1 || p == 2
    ensures p == 2 <==> now - last < ComboWindow
  {
    if now - last < ComboWindow then 2 else 1
  }

  /** The countdown updater: one second less, stopping at 0. */
  function TickTime(t: int): (r: int)
    ensures r >= 0
    ensures r == Max(0, t - 1)
  {
    if t <= 1 then 0 else t - 1
  }

  /** The clock after n ticks. */
  function TimeAfter(t: int, n: nat): int
    decreases n
  {
    if n == 0 then t else TimeAfter(TickTime(t), n - 1)
  }

  /** n ticks take a non-negative clock down by n, stopping at 0. */
  lemma {:induction false} TimeAfterTicks(t: int, n: nat)
    requires t >= 0
    ensures TimeAfter(t, n) == Max(0, t - n)
    decreases n
  {
    if n > 0 {
      TimeAfterTicks(TickTime(t), n - 1);
    }
  }

  /** From a fresh start the clock reads 0 after exactly 30 ticks, and not
      before. */
  lemma ClockRunsOutAtInitialTime(n: nat)
    ensures TimeAfter(InitialTime, n) == 0 <==> n >= InitialTime
  {
    TimeAfterTicks(InitialTime, n);
  }

  /** The high score committed at the end of a game. */
  function NewHighScore(prev: int, score: int): (r: int)
    ensures r >= prev && r >= score
    ensures r == prev || r == score
    ensures r != prev ==> score > prev
  {
    if score > prev then score else prev
  }

  /** Committing the same final score twice changes nothing more. */
  lemma CommitIsIdempotent(prev: int, score: int)
    ensures NewHighScore(NewHighScore(prev, score), score) == NewHighScore(prev, score)
  {
  }
}
