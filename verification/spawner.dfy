/**
  The enemy spawn director: difficulty from the play time, the size of
  each wave, which kind of enemy a random roll picks, the initial spawn
  settings, and the trigger for the final boss.
 */
module Spawner {
  import opened Wrappers

  /** Largest value of an unsigned 32-bit integer. */
  const U32_MAX: nat := 0xFFFF_FFFF

  /** Seconds of play per difficulty step (difficulty rises every 30 s). */
  const DIFFICULTY_STEP_SECS: nat := 30

  /** Enemies a wave may bring per difficulty level. */
  const SPAWNS_PER_DIFFICULTY: nat := 5

  /** Cap on live enemies in the initial spawn settings. */
  const INITIAL_MAX_ENEMIES: nat := 100

  /** Period of the repeating spawn timer, in seconds. */
  const SPAWN_PERIOD_SECS: real := 30.0

  /** Play time after which the final boss appears, in seconds. */
  const FINAL_BOSS_SECS: real := 600.0

  /** Exclusive upper end of the kind roll. */
  const ROLL_RANGE: nat := 100

  /* ---------------------------------------------------------------------- */
  /* Difficulty                                                              */
  /* ---------------------------------------------------------------------- */

  /**
    `elapsed as u32` on a non-negative play time: the whole seconds,
    saturating at the largest 32-bit value.
   */
  function WholeSeconds(elapsed: real): (secs: nat)
    requires elapsed >= 0.0
    ensures secs <= U32_MAX
    ensures secs < U32_MAX ==> secs as real <= elapsed < secs as real + 1.0
    ensures secs == U32_MAX ==> elapsed >= U32_MAX as real
  {
    if elapsed.Floor >= U32_MAX then U32_MAX else elapsed.Floor
  }

  /** The difficulty level: one more for every full 30 seconds played. */
  function Difficulty(secs: nat): (d: nat)
    ensures d >= 1
    ensures (d - 1) * DIFFICULTY_STEP_SECS <= secs < d * DIFFICULTY_STEP_SECS
  {
    secs / DIFFICULTY_STEP_SECS + 1
  }

  /** Difficulty never falls as play time goes on. */
  lemma DifficultyMonotone(a: nat, b: nat)
    requires a <= b
    ensures Difficulty(a) <= Difficulty(b)
  {
  }

  /** During the first ten minutes the difficulty stays within 1..20. */
  lemma DifficultyFirstTenMinutes(secs: nat)
    requires secs < 600
    ensures 1 <= Difficulty(secs) <= 20
  {
  }

  /**
    The spawn timer's advance for a frame of `delta` time units: the frame
    time multiplied by the difficulty, so waves come quicker as play goes on.
   */
  function ScaledDelta(delta: nat, secs: nat): (advance: nat)
    ensures advance == delta * Difficulty(secs)
    ensures advance >= delta
    ensures delta > 0 && secs >= DIFFICULTY_STEP_SECS ==> advance > delta
  {
    var d := Difficulty(secs);
    MulMono(1, d, delta);
    if d >= 2 then MulMono(2, d, delta); delta * d else delta * d
  }

  /** A later frame of the same length never advances the timer less. */
  lemma ScaledDeltaMonotone(delta: nat, a: nat, b: nat)
    requires a <= b
    ensures ScaledDelta(delta, a) <= ScaledDelta(delta, b)
  {
  }

  /* ---------------------------------------------------------------------- */
  /* Wave size                                                               */
  /* ---------------------------------------------------------------------- */

  /** `usize::try_into::<u32>()`: the count when it fits in 32 bits. */
  function TryIntoU32(n: nat): (r: Option<nat>)
    ensures r.Some? <==> n <= U32_MAX
    ensures r.Some? ==> r.value == n
  {
    if n <= U32_MAX then Some(n) else None
  }

  /** Live enemies as the director counts them; a count too large for 32 bits reads as the cap. */
  function EnemyCount(live: nat, max: nat): (count: nat)
    ensures live <= U32_MAX ==> count == live
    ensures live > U32_MAX ==> count == max
  {
    TryIntoU32(live).GetOr(max)
  }

  /**
    The number of enemies a wave brings: `difficulty * 5`, but no more
    than the headroom `max - enemies`. The headroom is a 32-bit
    subtraction, which fails (`None`) when more enemies are alive than the
    cap allows.
   */
  function WaveSize(difficulty: nat, max: nat, enemies: nat): (r: Option<nat>)
    ensures r.Some? <==> enemies <= max
    ensures r.Some? ==> r.value <= difficulty * SPAWNS_PER_DIFFICULTY
    ensures r.Some? ==> enemies + r.value <= max
    ensures r.Some? ==> r.value == difficulty * SPAWNS_PER_DIFFICULTY || enemies + r.value == max
  {
    if enemies > max then None
    else Some(Min(difficulty * SPAWNS_PER_DIFFICULTY, max - enemies))
  }

  /**
    For any play time the cast can produce, `difficulty * 5` stays within
    32 bits, so the cap computation cannot overflow.
   */
  lemma WaveCapFitsU32(elapsed: real)
    requires elapsed >= 0.0
    ensures Difficulty(WholeSeconds(elapsed)) * SPAWNS_PER_DIFFICULTY <= U32_MAX
  {
  }

  /** A live count that does not fit in 32 bits reads as the cap, so the wave is empty. */
  lemma UncountableEnemiesSpawnNothing(difficulty: nat, max: nat, live: nat)
    requires live > U32_MAX
    ensures WaveSize(difficulty, max, EnemyCount(live, max)) == Some(0)
  {
  }

  /* ---------------------------------------------------------------------- */
  /* Enemy kinds                                                             */
  /* ---------------------------------------------------------------------- */

  datatype EnemyKind = Mothership | DroneBoss | Fighter | Drone

  /** The kind a roll in `0..100` picks: 0, 1..=5, 6..=15 and everything else. */
  function KindForRoll(roll: nat): (k: EnemyKind)
    ensures k == Mothership <==> roll == 0
    ensures k == DroneBoss <==> 1 <= roll <= 5
    ensures k == Fighter <==> 6 <= roll <= 15
    ensures k == Drone <==> roll >= 16
  {
    match roll
    case 0 => Mothership
    case _ =>
      if roll <= 5 then DroneBoss
      else if roll <= 15 then Fighter
      else Drone
  }

  /** How many of the rolls `0..n` pick `kind`. */
  function RollsFor(kind: EnemyKind, n: nat): nat {
    if n == 0 then 0
    else RollsFor(kind, n - 1) + (if KindForRoll(n - 1) == kind then 1 else 0)
  }

  /** The number of rolls below `n` that land in each kind's range. */
  lemma {:induction false} RollsForRanges(n: nat)
    ensures RollsFor(Mothership, n) == Min(n, 1)
    ensures RollsFor(DroneBoss, n) == if n <= 1 then 0 else Min(n - 1, 5)
    ensures RollsFor(Fighter, n) == if n <= 6 then 0 else Min(n - 6, 10)
    ensures RollsFor(Drone, n) == if n <= 16 then 0 else n - 16
  {
    if n > 0 {
      RollsForRanges(n - 1);
    }
  }

  /** Every roll picks exactly one kind: the kind counts of `0..n` add up to `n`. */
  lemma {:induction false} RollsPartition(n: nat)
    ensures RollsFor(Mothership, n) + RollsFor(DroneBoss, n) + RollsFor(Fighter, n) + RollsFor(Drone, n) == n
  {
    if n > 0 {
      RollsPartition(n - 1);
    }
  }

  /** Over the roll range the kinds take 1, 5, 10 and 84 of the 100 rolls. */
  lemma KindShares()
    ensures RollsFor(Mothership, ROLL_RANGE) == 1
    ensures RollsFor(DroneBoss, ROLL_RANGE) == 5
    ensures RollsFor(Fighter, ROLL_RANGE) == 10
    ensures RollsFor(Drone, ROLL_RANGE) == 84
  {
    RollsForRanges(ROLL_RANGE);
  }

  /* ---------------------------------------------------------------------- */
  /* Spawn settings and a director tick                                      */
  /* ---------------------------------------------------------------------- */

  /** A repeating or one-shot timer: its period and the time run so far, in seconds. */
  datatype Timer = Timer(duration: real, elapsed: real, repeating: bool)

  /** The spawn settings: the cap on live enemies and the wave timer. */
  datatype Spawning = Spawning(max: nat, timer: Timer)

  /**
    The settings at the start of a game: a cap of 100 and a repeating
    30-second timer whose elapsed time is already set to a full period.
   */
  function InitialSpawning(): (s: Spawning)
    ensures s.max == INITIAL_MAX_ENEMIES
    ensures s.timer.repeating && s.timer.duration == SPAWN_PERIOD_SECS
    ensures s.timer.elapsed == s.timer.duration
  {
    Spawning(INITIAL_MAX_ENEMIES, Timer(SPAWN_PERIOD_SECS, SPAWN_PERIOD_SECS, true))
  }

  /** With no enemies alive at the start, the first wave brings five. */
  lemma FirstWave()
    ensures WaveSize(Difficulty(0), InitialSpawning().max, EnemyCount(0, InitialSpawning().max)) == Some(5)
  {
  }

  /** What one director tick does. */
  datatype WaveOutcome =
    | NoWave                             // the timer did not finish or there is not exactly one player
    | Wave(kinds: seq<EnemyKind>)        // the enemies spawned, in order
    | HeadroomUnderflow                  // more enemies alive than the cap: the 32-bit subtraction fails

  /**
    One tick of the spawn director, after the timer has been advanced by
    `ScaledDelta`. A wave comes only when the timer just finished and
    exactly one player exists; its size is `WaveSize`, and the `i`-th
    enemy's kind is picked by the `i`-th roll.
   */
  method SpawnerTick(spawning: Spawning, secs: nat, timerJustFinished: bool, players: nat,
                     live: nat, rolls: nat -> nat)
    returns (outcome: WaveOutcome)
    ensures !timerJustFinished || players != 1 ==> outcome == NoWave
    ensures outcome.Wave? <==>
              timerJustFinished && players == 1 && EnemyCount(live, spawning.max) <= spawning.max
    ensures timerJustFinished && players == 1 ==>
              (outcome.HeadroomUnderflow? <==> EnemyCount(live, spawning.max) > spawning.max)
    ensures outcome.Wave? ==>
              Some(|outcome.kinds|) == WaveSize(Difficulty(secs), spawning.max, EnemyCount(live, spawning.max))
    ensures outcome.Wave? ==> forall i :: 0 <= i < |outcome.kinds| ==> outcome.kinds[i] == KindForRoll(rolls(i))
  {
    if !timerJustFinished || players != 1 {
      return NoWave;
    }
    var difficulty := Difficulty(secs);
    var enemies := EnemyCount(live, spawning.max);
    var size := WaveSize(difficulty, spawning.max, enemies);
    if size.None? {
      return HeadroomUnderflow;
    }
    var kinds: seq<EnemyKind> := [];
    var i := 0;
    while i < size.value
      invariant 0 <= i <= size.value
      invariant |kinds| == i
      invariant forall j :: 0 <= j < i ==> kinds[j] == KindForRoll(rolls(j))
    {
      kinds := kinds + [KindForRoll(rolls(i))];
      i := i + 1;
    }
    return Wave(kinds);
  }

  /**
    A wave never lifts the live count above the cap, and never brings more
    than five enemies per difficulty level.
   */
  lemma WaveRespectsCap(spawning: Spawning, secs: nat, live: nat, kinds: seq<EnemyKind>)
    requires live <= U32_MAX
    requires Some(|kinds|) == WaveSize(Difficulty(secs), spawning.max, EnemyCount(live, spawning.max))
    ensures live + |kinds| <= spawning.max
    ensures |kinds| <= Difficulty(secs) * SPAWNS_PER_DIFFICULTY
  {
  }

  /* ---------------------------------------------------------------------- */
  /* Final boss                                                              */
  /* ---------------------------------------------------------------------- */

  /**
    The final boss is spawned when more than ten minutes have passed and
    none exists. So it is never due while one exists, and by the time it is
    due the wave difficulty has passed 20.
   */
  function FinalBossDue(elapsed: real, bosses: nat): (due: bool)
    ensures bosses > 0 ==> !due
    ensures bosses == 0 && elapsed > FINAL_BOSS_SECS ==> due
    ensures due ==> elapsed > FINAL_BOSS_SECS
    ensures due ==> elapsed >= 0.0 && Difficulty(WholeSeconds(elapsed)) >= 21
  {
    (elapsed > FINAL_BOSS_SECS) && (bosses == 0)
  }

  /**
    The number of final bosses after the trigger has run once per frame at
    the given play times, starting from `bosses`; each spawn is in place by
    the next frame and no final boss is removed in between.
   */
  function BossesAfter(times: seq<real>, bosses: nat): nat
    decreases |times|
  {
    if |times| == 0 then bosses
    else BossesAfter(times[1..], if FinalBossDue(times[0], bosses) then bosses + 1 else bosses)
  }

  /**
    Over any run of frames starting without a final boss, exactly one is
    spawned if some frame is past ten minutes, and none otherwise.
   */
  lemma {:induction false} OneFinalBoss(times: seq<real>, bosses: nat)
    requires bosses <= 1
    ensures BossesAfter(times, bosses) <= 1
    ensures bosses == 1 ==> BossesAfter(times, bosses) == 1
    ensures bosses == 0 ==>
              (BossesAfter(times, bosses) == 1 <==> exists i :: 0 <= i < |times| && times[i] > FINAL_BOSS_SECS)
    decreases |times|
  {
    if |times| > 0 {
      var next := if FinalBossDue(times[0], bosses) then bosses + 1 else bosses;
      OneFinalBoss(times[1..], next);
      if bosses == 0 {
        if exists i :: 0 <= i < |times| && times[i] > FINAL_BOSS_SECS {
          var i :| 0 <= i < |times| && times[i] > FINAL_BOSS_SECS;
          if i > 0 {
            assert times[1..][i - 1] == times[i];
          }
        }
        if exists j :: 0 <= j < |times[1..]| && times[1..][j] > FINAL_BOSS_SECS {
          var j :| 0 <= j < |times[1..]| && times[1..][j] > FINAL_BOSS_SECS;
          assert times[j + 1] > FINAL_BOSS_SECS;
        }
      }
    }
  }
}
