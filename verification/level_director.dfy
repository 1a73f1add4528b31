/** The older, level-driven spawn director (Director/SpawnDirector.js).

    On every frame it re-reads the player's level; a level change re-derives
    the difficulty multiplier and the population cap and unlocks enemy types.
    Below the cap a cooldown counts down by the frame time and, when it runs
    out, one enemy of a random pooled type is spawned at a sampled point with
    its stats scaled by the level, and the cooldown restarts at
    `spawnInterval / difficultyMultiplier`. */
module LevelDirector {
  import opened Js
  import opened SpawnSampler
  import UnlockTracker

  const SpawnInterval: real := 1200.0
  const InitialMaxEnemies: int := 35
  const SpawnRadius: int := 450
  const SampleAttempts: nat := 20

  const Unlocks: seq<UnlockTracker.Rule> := [
    UnlockTracker.Rule(3.0, "fast"),
    UnlockTracker.Rule(5.0, "tank"),
    UnlockTracker.Rule(8.0, "shooter"),
    UnlockTracker.Rule(12.0, "elite")
  ]

  datatype Director = Director(
    spawnCooldown: real,
    maxEnemies: int,
    difficultyMultiplier: real,
    lastLevel: real,
    pool: seq<string>)

  /** The state the constructor builds. */
  function Init(): Director {
    Director(0.0, InitialMaxEnemies, 1.0, 1.0, ["normal"])
  }

  /** What every reachable state satisfies: the multiplier is at least one
      (so the cooldown division is defined and positive) and the pool starts
      with "normal" and never repeats a type. */
  ghost predicate Valid(d: Director) {
    && d.difficultyMultiplier >= 1.0
    && |d.pool| > 0 && d.pool[0] == "normal" && UnlockTracker.NoDuplicates(d.pool)
  }

  /** A player level as the game produces it: absent, or a number that is not negative. */
  predicate LevelSlot(level: Value) {
    level.Num? ==> level.n >= 0.0
  }

  /** `player.level || 1` */
  function EffectiveLevel(level: Value): real {
    Or(level, 1.0)
  }

  /** `updateDifficulty()` */
  function UpdateDifficulty(d: Director, level: Value): (r: Director)
    ensures EffectiveLevel(level) == d.lastLevel ==> r == d
    ensures r.lastLevel == EffectiveLevel(level) && r.spawnCooldown == d.spawnCooldown
    ensures EffectiveLevel(level) != d.lastLevel ==>
              && r.difficultyMultiplier == 1.0 + EffectiveLevel(level) * 0.1
              && r.maxEnemies == 25 + (EffectiveLevel(level) * 2.0).Floor
              && r.pool == UnlockTracker.Apply(d.pool, EffectiveLevel(level), Unlocks)
    ensures |d.pool| <= |r.pool| && r.pool[..|d.pool|] == d.pool
    ensures forall k :: k in d.pool ==> k in r.pool
    ensures Valid(d) && LevelSlot(level) ==> Valid(r)
  {
    var l := EffectiveLevel(level);
    if l != d.lastLevel then
      Director(d.spawnCooldown, 25 + (l * 2.0).Floor, 1.0 + l * 0.1, l, UnlockTracker.Apply(d.pool, l, Unlocks))
    else d
  }

  /** A second call at the same level changes nothing. */
  lemma UpdateDifficultyIdempotent(d: Director, level: Value)
    ensures UpdateDifficulty(UpdateDifficulty(d, level), level) == UpdateDifficulty(d, level)
  {
  }

  /** A type is in the pool after a level change exactly when it was before or its unlock level is reached. */
  lemma LevelUnlocks(d: Director, level: Value, kind: string)
    requires EffectiveLevel(level) != d.lastLevel
    ensures kind in UpdateDifficulty(d, level).pool <==> kind in d.pool || UnlockTracker.Fires(Unlocks, EffectiveLevel(level), kind)
  {
  }

  /** Stats of the enemy the scene created; the old enemy entity has no
      `damage` field, so `damage` is a slot that may be undefined. Its
      health is `currentHP` (entities/enemy.js); `hp` is the property the
      director writes, which that enemy never reads. */
  datatype Stats = Stats(maxHP: real, hp: real, currentHP: real, speed: real, damage: Value)

  /** `Phaser.Utils.Array.GetRandom`: the element at `floor(roll * length)`, `roll` in `[0, 1)`. */
  function GetRandom(pool: seq<string>, roll: real): (r: string)
    requires |pool| > 0 && 0.0 <= roll < 1.0
    ensures r in pool
  {
    var n := |pool| as real;
    assert 0.0 <= roll * n < n by {
      assert roll * n <= 1.0 * n - (1.0 - roll) * n;
    }
    pool[(roll * n).Floor]
  }

  /** The level rescale of `spawnEnemy`: each stat becomes
      `floor(stat * (1 + lvl * k))`, and `hp` is set to the new maximum
      while the health the enemy reads, `currentHP`, stays as created. */
  function Rescale(e: Stats, lvl: real): (r: Stats)
    ensures r.hp == r.maxHP && r.currentHP == e.currentHP
    ensures Whole(r.maxHP) && Whole(r.speed)
    ensures r.maxHP <= e.maxHP * (1.0 + lvl * 0.05) < r.maxHP + 1.0
    ensures r.speed <= e.speed * (1.0 + lvl * 0.03) < r.speed + 1.0
    ensures e.damage.Num? <==> r.damage.Num?
    ensures e.damage.Num? ==> r.damage.n <= e.damage.n * (1.0 + lvl * 0.04) < r.damage.n + 1.0
  {
    Stats(Grown(e.maxHP, 1.0 + lvl * 0.05), Grown(e.maxHP, 1.0 + lvl * 0.05), e.currentHP, Grown(e.speed, 1.0 + lvl * 0.03),
          FloorValue(Times(e.damage, 1.0 + lvl * 0.04)))
  }

  /** The first game's enemy (150 hit points) rescaled at level 1: its
      maximum grows to 157 while its health stays at 150. */
  lemma RescaleLeavesHealth(e: Stats)
    requires e.maxHP == 150.0 && e.currentHP == 150.0
    ensures Rescale(e, 1.0).maxHP == 157.0 && Rescale(e, 1.0).currentHP == 150.0
  {
    assert 150.0 * (1.0 + 1.0 * 0.05) == 157.5;
  }

  /** The rescale with the full-health reset written to the field the enemy
      reads: `currentHP` becomes the new maximum, every other stat as in
      `Rescale`. */
  function RescaleIntended(e: Stats, lvl: real): (r: Stats)
    ensures r.currentHP == r.maxHP
    ensures r.(currentHP := e.currentHP) == Rescale(e, lvl)
  {
    Rescale(e, lvl).(currentHP := Grown(e.maxHP, 1.0 + lvl * 0.05))
  }

  /** So rescaled, an enemy starts at full health and never with less
      health than it was created with. */
  lemma RescaleIntendedFullHealth(e: Stats, lvl: real)
    requires lvl >= 0.0 && e.maxHP >= 0.0 && Whole(e.maxHP) && e.currentHP <= e.maxHP
    ensures RescaleIntended(e, lvl).currentHP == RescaleIntended(e, lvl).maxHP >= e.currentHP
  {
    GrownNeverShrinks(e.maxHP, 1.0 + lvl * 0.05);
  }

  /** `Math.floor(x * f)` */
  function Grown(x: real, f: real): (r: real)
    ensures Whole(r) && r <= x * f < r + 1.0
  {
    (x * f).Floor as real
  }

  lemma RescaleNeverWeakens(e: Stats, lvl: real)
    requires lvl >= 0.0 && e.maxHP >= 0.0 && e.speed >= 0.0
    requires Whole(e.maxHP) && Whole(e.speed)
    ensures Rescale(e, lvl).maxHP >= e.maxHP && Rescale(e, lvl).speed >= e.speed
  {
    GrownNeverShrinks(e.maxHP, 1.0 + lvl * 0.05);
    GrownNeverShrinks(e.speed, 1.0 + lvl * 0.03);
  }

  /** A whole non-negative number grown by a factor of at least one and
      rounded down is no smaller. */
  lemma GrownNeverShrinks(x: real, f: real)
    requires x >= 0.0 && f >= 1.0 && Whole(x)
    ensures Grown(x, f) >= x
  {
    MulMonotone(x, 1.0, f);
    FloorMonotone(x, x * f);
  }

  datatype Spawn = Spawn(kind: string, at: Point, stats: Stats)

  /** Random draws of one spawn: the pool roll, the sampler's candidates
      (one per attempt) and the stats of the enemy the scene creates. */
  datatype Draws = Draws(roll: real, candidates: seq<Point>, created: Stats)

  predicate ValidDraws(r: Draws) {
    0.0 <= r.roll < 1.0 && |r.candidates| >= SampleAttempts
  }

  /** `spawnEnemy()`: nothing is created when no position is found. */
  function SpawnEnemy(pool: seq<string>, level: Value, worldWidth: real, worldHeight: real, draws: Draws): (r: Option<Spawn>)
    requires |pool| > 0 && ValidDraws(draws)
    ensures r.Some? <==> Sample(draws.candidates, SampleAttempts, worldWidth, worldHeight).Some?
    ensures r.Some? ==> r.value.kind in pool && InWorld(r.value.at, worldWidth, worldHeight)
    ensures r.Some? ==> r.value.stats == Rescale(draws.created, EffectiveLevel(level))
  {
    var kind := GetRandom(pool, draws.roll);
    match Sample(draws.candidates, SampleAttempts, worldWidth, worldHeight)
    case None => None
    case Some(at) => Some(Spawn(kind, at, Rescale(draws.created, EffectiveLevel(level))))
  }

  datatype Step = Step(director: Director, spawned: Option<Spawn>)

  /** `update(time, delta)`. `playerPresent` is the scene's player guard and
      `children` the enemy group's child count (`|| 0` when the group is missing). */
  function Update(d: Director, delta: real, children: nat, level: Value, playerPresent: bool,
                  worldWidth: real, worldHeight: real, draws: Draws): (s: Step)
    requires Valid(d) && LevelSlot(level) && ValidDraws(draws)
    ensures Valid(s.director)
    ensures !playerPresent ==> s == Step(d, None)
    ensures playerPresent ==> s.director.pool == UpdateDifficulty(d, level).pool
                              && s.director.maxEnemies == UpdateDifficulty(d, level).maxEnemies
    ensures playerPresent && children >= s.director.maxEnemies ==>
              s.spawned.None? && s.director.spawnCooldown == d.spawnCooldown
    ensures playerPresent && children < s.director.maxEnemies && d.spawnCooldown - delta > 0.0 ==>
              s.spawned.None? && s.director.spawnCooldown == d.spawnCooldown - delta
    ensures playerPresent && children < s.director.maxEnemies && d.spawnCooldown - delta <= 0.0 ==>
              && s.director.spawnCooldown * s.director.difficultyMultiplier == SpawnInterval
              && 0.0 < s.director.spawnCooldown <= SpawnInterval
              && (s.spawned.Some? <==> Sample(draws.candidates, SampleAttempts, worldWidth, worldHeight).Some?)
    ensures s.spawned.Some? ==> s.spawned.value.kind in s.director.pool && s.spawned.value.stats.hp == s.spawned.value.stats.maxHP
  {
    if !playerPresent then Step(d, None)
    else
      var u := UpdateDifficulty(d, level);
      if children >= u.maxEnemies then Step(u, None)
      else
        var c := u.spawnCooldown - delta;
        if c <= 0.0 then
          var next := SpawnInterval / u.difficultyMultiplier;
          assert 0.0 < next <= SpawnInterval by {
            assert next * u.difficultyMultiplier == SpawnInterval;
          }
          Step(u.(spawnCooldown := next), SpawnEnemy(u.pool, level, worldWidth, worldHeight, draws))
        else Step(u.(spawnCooldown := c), None)
  }
}
