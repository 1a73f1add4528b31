/** The enemy spawn director of the current game (js/Director/SpawnDirector.js).

    Every frame the director converts elapsed time into spawn points, unlocks
    enemy types by play time, advances a cyclic "chaos" event that raises the
    point rate and the population cap, and then either drains one request of
    a paced spawn queue or buys a new request (one enemy, or a batch of two or
    three during chaos) for a type that is affordable and under its per-type
    cap, placed at a point found by bounded rejection sampling.

    Times are in milliseconds (`time`, `delta`) and seconds (`elapsed`,
    chaos timers), as in the source. Random draws, the live-enemy count and
    the world size are parameters. */
module SpawnDirector {
  import opened Js
  import opened SpawnSampler
  import UnlockTracker

  // Constructor tuning (js/Director/SpawnDirector.js:9-63); none of these changes during a run.
  const PointsPerSecond: real := 1.2
  const MaxEnemies: int := 30
  const SpawnRadius: int := 450
  const SpawnBatchDelay: real := 40.0
  const SampleAttempts: nat := 25
  const ChaosDuration: real := 20.0
  const ChaosCooldown: real := 90.0
  const FirstChaosAt: real := 60.0
  const ChaosSpawnMultiplier: real := 2.2
  const ChaosMaxEnemyBonus: int := 20

  const Unlocks: seq<UnlockTracker.Rule> := [
    UnlockTracker.Rule(60.0, "wanderer"),
    UnlockTracker.Rule(120.0, "shooter"),
    UnlockTracker.Rule(240.0, "fast"),
    UnlockTracker.Rule(360.0, "tank"),
    UnlockTracker.Rule(480.0, "elite")
  ]

  const EnemyCost: map<string, real> :=
    map["chaser" := 1.0, "wanderer" := 1.2, "shooter" := 1.5, "fast" := 1.3, "tank" := 2.5, "elite" := 4.0]

  const MaxPerType: map<string, int> :=
    map["chaser" := 18, "wanderer" := 10, "shooter" := 8, "tank" := 6, "elite" := 3]

  /** `enemyCost[type] ?? 1` */
  function Cost(kind: string): real {
    if kind in EnemyCost then EnemyCost[kind] else 1.0
  }

  /** `maxPerType[type] ?? 99` */
  function Limit(kind: string): int {
    if kind in MaxPerType then MaxPerType[kind] else 99
  }

  /** `activePerType[type] ?? 0` */
  function Live(ledger: map<string, int>, kind: string): int {
    if kind in ledger then ledger[kind] else 0
  }

  datatype Chaos = Chaos(active: bool, timer: real, nextAt: real)

  datatype Request = Request(kind: string, x: real, y: real)

  /** One `Phaser.Math.Between(-20, 20)` pair of position jitter. */
  datatype Offset = Offset(dx: int, dy: int)

  datatype Director = Director(
    spawnPoints: real,
    pool: seq<string>,
    elapsed: real,
    chaos: Chaos,
    batch: seq<Request>,
    lastBatchTime: real,
    activePerType: map<string, int>)

  /** The state the constructor builds. */
  function Init(): Director {
    Director(0.0, ["chaser"], 0.0, Chaos(false, 0.0, FirstChaosAt), [], 0.0, map[])
  }

  /** The random draws one `update` may consume: the shuffle of the roulette,
      the 25 candidate points of the sampler, the chaos batch size and the
      jitter of each queued request. */
  datatype Draws = Draws(
    shuffle: seq<string> -> seq<string>,
    candidates: seq<Point>,
    batchSize: int,
    jitter: seq<Offset>)

  ghost predicate ValidDraws(r: Draws) {
    && (forall s {:trigger r.shuffle(s)} :: multiset(r.shuffle(s)) == multiset(s))
    && |r.candidates| >= SampleAttempts
    && 2 <= r.batchSize <= 3
    && |r.jitter| >= 3
    && (forall i :: 0 <= i < |r.jitter| ==> -20 <= r.jitter[i].dx <= 20 && -20 <= r.jitter[i].dy <= 20)
  }

  // ---------------------------------------------------------------------
  // Chaos event

  /** `updateChaos(dt)`, with `startChaos`/`endChaos` inlined. */
  function UpdateChaos(c: Chaos, elapsed: real, dt: real): (r: Chaos)
    ensures !c.active && elapsed < c.nextAt ==> r == c
    ensures r.active ==> r.nextAt == c.nextAt && r.timer > 0.0
    ensures r.active ==> r.timer == (if c.active then c.timer else ChaosDuration) - dt
    ensures (c.active || elapsed >= c.nextAt) && !r.active ==>
              r.nextAt == elapsed + ChaosCooldown && (if c.active then c.timer else ChaosDuration) - dt <= 0.0
  {
    var started := if !c.active && elapsed >= c.nextAt then c.(active := true, timer := ChaosDuration) else c;
    if started.active then
      var ticking := started.(timer := started.timer - dt);
      if ticking.timer <= 0.0 then ticking.(active := false, nextAt := elapsed + ChaosCooldown) else ticking
    else started
  }

  /** Points earned per second in the current chaos state. */
  function Rate(chaosActive: bool): real {
    if chaosActive then PointsPerSecond * ChaosSpawnMultiplier else PointsPerSecond
  }

  /** Points earned over `seconds` in the current chaos state. */
  function Earned(chaosActive: bool, seconds: real): (r: real)
    ensures seconds >= 0.0 ==> r >= 0.0
  {
    Rate(chaosActive) * seconds
  }

  /** Population cap in the current chaos state. */
  function Cap(chaosActive: bool): int {
    if chaosActive then MaxEnemies + ChaosMaxEnemyBonus else MaxEnemies
  }

  // ---------------------------------------------------------------------
  // Per-type ledger

  /** `spawnEnemy`'s bookkeeping: `activePerType[type] = (activePerType[type] ?? 0) + 1`. */
  function SpawnEnemy(ledger: map<string, int>, kind: string): (r: map<string, int>)
    ensures Live(r, kind) == Live(ledger, kind) + 1
    ensures forall k :: k != kind ==> Live(r, k) == Live(ledger, k)
    ensures r.Keys == ledger.Keys + {kind}
  {
    ledger[kind := Live(ledger, kind) + 1]
  }

  /** The enemy's `destroy` hook: `activePerType[type]--`. It is only ever
      registered by `SpawnEnemy`, so the key is present. */
  function Release(ledger: map<string, int>, kind: string): (r: map<string, int>)
    requires kind in ledger
    ensures Live(r, kind) == Live(ledger, kind) - 1
    ensures forall k :: k != kind ==> Live(r, k) == Live(ledger, k)
    ensures r.Keys == ledger.Keys
  {
    ledger[kind := ledger[kind] - 1]
  }

  // ---------------------------------------------------------------------
  // Type selection

  /** `unlocks.find(u => u.type === type)?.time` */
  function UnlockTime(rules: seq<UnlockTracker.Rule>, kind: string): Option<real> {
    if rules == [] then None
    else if rules[0].kind == kind then Some(rules[0].threshold)
    else UnlockTime(rules[1..], kind)
  }

  /** The anti-premature-spawn filter of `trySpawn`. */
  predicate Allowed(kind: string, elapsed: real) {
    var t := UnlockTime(Unlocks, kind);
    t.None? || elapsed >= t.value
  }

  function AllowedPool(pool: seq<string>, elapsed: real): (r: seq<string>)
    ensures forall k :: k in r <==> k in pool && Allowed(k, elapsed)
    ensures |r| <= |pool|
  {
    if pool == [] then []
    else if Allowed(pool[0], elapsed) then [pool[0]] + AllowedPool(pool[1..], elapsed)
    else AllowedPool(pool[1..], elapsed)
  }

  /** Types costing at most 1.2, which chaos lists twice more in the roulette. */
  function Cheap(pool: seq<string>): (r: seq<string>)
    ensures forall k :: k in r <==> k in pool && Cost(k) <= 1.2
  {
    if pool == [] then []
    else if Cost(pool[0]) <= 1.2 then [pool[0]] + Cheap(pool[1..])
    else Cheap(pool[1..])
  }

  /** The list `trySpawn` shuffles: the allowed pool, plus the cheap types twice in chaos. */
  function Roulette(allowed: seq<string>, chaosActive: bool): (r: seq<string>)
    ensures forall k :: k in r <==> k in allowed
    ensures !chaosActive ==> r == allowed
  {
    if chaosActive then allowed + Cheap(allowed) + Cheap(allowed) else allowed
  }

  /** The purchase test in the roulette loop. */
  predicate Buyable(points: real, ledger: map<string, int>, kind: string) {
    points >= Cost(kind) && Live(ledger, kind) < Limit(kind)
  }

  /** The first type of the shuffled roulette that passes the purchase test. */
  function FirstBuyable(order: seq<string>, points: real, ledger: map<string, int>): (r: Option<string>)
    ensures r.Some? ==> r.value in order && Buyable(points, ledger, r.value)
    ensures r.None? <==> forall i :: 0 <= i < |order| ==> !Buyable(points, ledger, order[i])
  {
    if order == [] then None
    else if Buyable(points, ledger, order[0]) then Some(order[0])
    else
      var r := FirstBuyable(order[1..], points, ledger);
      assert forall i :: 0 < i < |order| ==> order[i] == order[1..][i - 1];
      r
  }

  /** The type chosen is the first entry of the roulette that passes: every
      entry before it fails. */
  lemma {:induction false} FirstBuyableIsFirst(order: seq<string>, points: real, ledger: map<string, int>)
    requires FirstBuyable(order, points, ledger).Some?
    ensures exists i :: 0 <= i < |order| && order[i] == FirstBuyable(order, points, ledger).value
                        && forall j :: 0 <= j < i ==> !Buyable(points, ledger, order[j])
  {
    if !Buyable(points, ledger, order[0]) {
      var r := FirstBuyable(order[1..], points, ledger);
      FirstBuyableIsFirst(order[1..], points, ledger);
      var i :| 0 <= i < |order[1..]| && order[1..][i] == r.value
               && forall j :: 0 <= j < i ==> !Buyable(points, ledger, order[1..][j]);
      assert order[i + 1] == r.value;
      assert forall j :: 0 < j < i + 1 ==> order[j] == order[1..][j - 1];
    } else {
      assert order[0] == FirstBuyable(order, points, ledger).value;
    }
  }

  /** The requests queued for one purchase, jittered around the sampled point. */
  function Requests(kind: string, at: Point, jitter: seq<Offset>, n: nat): (r: seq<Request>)
    requires n <= |jitter|
    ensures |r| == n
    ensures forall i :: 0 <= i < n ==> r[i].kind == kind
    ensures forall i :: 0 <= i < n ==> r[i].x == at.x + jitter[i].dx as real && r[i].y == at.y + jitter[i].dy as real
  {
    seq(n, i requires 0 <= i < n => Request(kind, at.x + jitter[i].dx as real, at.y + jitter[i].dy as real))
  }

  // ---------------------------------------------------------------------
  // trySpawn

  /** Outcome of one step: the new state, the request handed to the enemy
      factory (if one was dequeued) and the points spent on a purchase. */
  datatype Step = Step(director: Director, spawned: Option<Request>, spent: real)

  /** The pending-batch branch of `trySpawn`. */
  function Drain(d: Director, time: real): (s: Step)
    requires |d.batch| > 0
    ensures s.spent == 0.0 && s.director.spawnPoints == d.spawnPoints
    ensures s.spawned.Some? <==> time - d.lastBatchTime >= SpawnBatchDelay
    ensures s.spawned.None? ==> s.director == d
    ensures s.spawned.Some? ==>
              && s.spawned.value == d.batch[0]
              && s.director == d.(batch := d.batch[1..], lastBatchTime := time,
                                   activePerType := SpawnEnemy(d.activePerType, d.batch[0].kind))
  {
    if time - d.lastBatchTime >= SpawnBatchDelay then
      var next := d.batch[0];
      Step(d.(batch := d.batch[1..], lastBatchTime := time,
              activePerType := SpawnEnemy(d.activePerType, next.kind)), Some(next), 0.0)
    else Step(d, None, 0.0)
  }

  /** A shuffle keeps exactly the members of the list it shuffles. */
  lemma ShuffleMembers(order: seq<string>, list: seq<string>)
    requires multiset(order) == multiset(list)
    ensures forall k :: k in order <==> k in list
  {
    forall k ensures k in order <==> k in list {
      assert k in order <==> k in multiset(order);
      assert k in list <==> k in multiset(list);
    }
  }

  /** No member of `list` is buyable when a permutation of it has no buyable entry. */
  lemma NoneBuyable(order: seq<string>, list: seq<string>, points: real, ledger: map<string, int>)
    requires forall k :: k in order <==> k in list
    requires FirstBuyable(order, points, ledger).None?
    ensures !exists k :: k in list && Buyable(points, ledger, k)
  {
    forall k | k in list ensures !Buyable(points, ledger, k) {
      var i :| 0 <= i < |order| && order[i] == k;
    }
  }

  /** Summed cost of the queued requests. */
  function BatchCost(batch: seq<Request>): real {
    if batch == [] then 0.0 else Cost(batch[0].kind) + BatchCost(batch[1..])
  }

  /** What `n` enemies of type `kind` cost together. */
  function Charge(kind: string, n: nat): real {
    Cost(kind) * n as real
  }

  /** A batch of one type costs that type's cost times its size. */
  lemma {:induction false} BatchCostUniform(batch: seq<Request>, kind: string)
    requires forall i :: 0 <= i < |batch| ==> batch[i].kind == kind
    ensures BatchCost(batch) == Cost(kind) * |batch| as real
  {
    if batch != [] {
      BatchCostUniform(batch[1..], kind);
    }
  }

  /** The state after buying `n` enemies of type `kind` at `at`. */
  function Buy(d: Director, kind: string, at: Point, time: real, n: nat, jitter: seq<Offset>): (s: Step)
    requires 1 <= n <= |jitter|
    requires forall i :: 0 <= i < |jitter| ==> -20 <= jitter[i].dx <= 20 && -20 <= jitter[i].dy <= 20
    ensures s.spawned.None? && s.spent == Cost(kind) * n as real && s.spent == BatchCost(s.director.batch)
    ensures |s.director.batch| == n && s.director.batch[0].kind == kind
    ensures forall q :: q in s.director.batch ==> q.kind == kind
    ensures forall q :: q in s.director.batch ==> -20.0 <= q.x - at.x <= 20.0 && -20.0 <= q.y - at.y <= 20.0
    ensures s.director == d.(spawnPoints := d.spawnPoints - s.spent, batch := s.director.batch, lastBatchTime := time)
  {
    var batch := Requests(kind, at, jitter, n);
    assert forall q :: q in batch ==> exists i :: 0 <= i < n && batch[i] == q;
    BatchCostUniform(batch, kind);
    Step(d.(spawnPoints := d.spawnPoints - Cost(kind) * n as real, batch := batch, lastBatchTime := time),
         None, Cost(kind) * n as real)
  }

  /** The roulette loop of `trySpawn` up to the position test: the type it
      settles on, if any. */
  function Pick(d: Director, draws: Draws): (r: Option<string>)
    requires ValidDraws(draws)
    ensures r.Some? ==> r.value in d.pool && Allowed(r.value, d.elapsed) && Buyable(d.spawnPoints, d.activePerType, r.value)
    ensures r.None? <==> !exists k :: k in AllowedPool(d.pool, d.elapsed) && Buyable(d.spawnPoints, d.activePerType, k)
  {
    ShuffleMembers(draws.shuffle(Roulette(AllowedPool(d.pool, d.elapsed), d.chaos.active)),
                   Roulette(AllowedPool(d.pool, d.elapsed), d.chaos.active));
    match FirstBuyable(draws.shuffle(Roulette(AllowedPool(d.pool, d.elapsed), d.chaos.active)), d.spawnPoints, d.activePerType)
    case None =>
      NoneBuyable(draws.shuffle(Roulette(AllowedPool(d.pool, d.elapsed), d.chaos.active)),
                  AllowedPool(d.pool, d.elapsed), d.spawnPoints, d.activePerType);
      None
    case Some(kind) => Some(kind)
  }

  /** The purchase branch of `trySpawn` (the batch is empty). */
  function Purchase(d: Director, time: real, width: real, height: real, draws: Draws): (s: Step)
    requires d.batch == [] && ValidDraws(draws)
    ensures s.spawned.None?
    ensures s.director.batch == [] ==> s.director == d && s.spent == 0.0
    ensures s.director.batch != [] <==>
              && (exists k :: k in AllowedPool(d.pool, d.elapsed) && Buyable(d.spawnPoints, d.activePerType, k))
              && Sample(draws.candidates, SampleAttempts, width, height).Some?
    ensures s.director.batch != [] ==>
              var k := s.director.batch[0].kind;
              && k in d.pool && Allowed(k, d.elapsed)
              && Buyable(d.spawnPoints, d.activePerType, k)
              && |s.director.batch| == (if d.chaos.active then draws.batchSize else 1)
              && (forall q :: q in s.director.batch ==> q.kind == k)
              && s.spent == BatchCost(s.director.batch)
              && s.director == d.(spawnPoints := d.spawnPoints - s.spent, batch := s.director.batch, lastBatchTime := time)
    ensures s.director.batch != [] ==>
              var at := Sample(draws.candidates, SampleAttempts, width, height).value;
              forall q :: q in s.director.batch ==>
                -20.0 <= q.x - at.x <= 20.0 && -20.0 <= q.y - at.y <= 20.0
  {
    match Pick(d, draws)
    case None => Step(d, None, 0.0)
    case Some(kind) => Place(d, kind, time, width, height, draws)
  }

  /** The position test and the purchase once a type is settled on: without
      a position the frame ends with nothing bought. */
  function Place(d: Director, kind: string, time: real, width: real, height: real, draws: Draws): (s: Step)
    requires d.batch == [] && ValidDraws(draws)
    ensures s.spawned.None?
    ensures s.director.batch != [] <==> Sample(draws.candidates, SampleAttempts, width, height).Some?
    ensures s.director.batch == [] ==> s.director == d && s.spent == 0.0
    ensures s.director.batch != [] ==>
              && |s.director.batch| == (if d.chaos.active then draws.batchSize else 1)
              && s.director.batch[0].kind == kind
              && (forall q :: q in s.director.batch ==> q.kind == kind)
              && s.spent == BatchCost(s.director.batch)
              && s.director == d.(spawnPoints := d.spawnPoints - s.spent, batch := s.director.batch, lastBatchTime := time)
              && var at := Sample(draws.candidates, SampleAttempts, width, height).value;
                 forall q :: q in s.director.batch ==> -20.0 <= q.x - at.x <= 20.0 && -20.0 <= q.y - at.y <= 20.0
  {
    match Sample(draws.candidates, SampleAttempts, width, height)
    case None => Step(d, None, 0.0)
    case Some(at) => Buy(d, kind, at, time, if d.chaos.active then draws.batchSize else 1, draws.jitter)
  }

  /** `trySpawn(time)`: drain while a batch is pending, otherwise try one purchase. */
  function TrySpawn(d: Director, time: real, width: real, height: real, draws: Draws): (s: Step)
    requires ValidDraws(draws)
    ensures s.director.elapsed == d.elapsed && s.director.pool == d.pool && s.director.chaos == d.chaos
    ensures s.director.spawnPoints == d.spawnPoints - s.spent
    ensures s.spawned.Some? ==>
              && d.batch != [] && s.spawned.value == d.batch[0] && s.director.batch == d.batch[1..]
              && s.director.activePerType == SpawnEnemy(d.activePerType, d.batch[0].kind)
              && time - d.lastBatchTime >= SpawnBatchDelay
    ensures s.spawned.None? ==> s.director.activePerType == d.activePerType
    ensures s.director.batch != d.batch && s.spawned.None? ==>
              && d.batch == []
              && var k := s.director.batch[0].kind;
              && k in d.pool && Allowed(k, d.elapsed)
              && Buyable(d.spawnPoints, d.activePerType, k)
              && |s.director.batch| == (if d.chaos.active then draws.batchSize else 1)
              && (forall q :: q in s.director.batch ==> q.kind == k)
              && s.spent == BatchCost(s.director.batch)
    ensures s.director.batch == d.batch ==> s.spent == 0.0 && s.director == d
  {
    if |d.batch| > 0 then Drain(d, time) else Purchase(d, time, width, height, draws)
  }

  // ---------------------------------------------------------------------
  // update

  /** The bookkeeping half of `update`: clock, unlocks, chaos state and point accrual. */
  function Tick(d: Director, delta: real): (r: Director)
    ensures r.elapsed == d.elapsed + delta / 1000.0
    ensures r.chaos == UpdateChaos(d.chaos, r.elapsed, delta / 1000.0)
    ensures r.spawnPoints == d.spawnPoints + Earned(r.chaos.active, delta / 1000.0)
    ensures delta >= 0.0 ==> r.spawnPoints >= d.spawnPoints
    ensures |d.pool| <= |r.pool| && r.pool[..|d.pool|] == d.pool
    ensures forall k :: k in r.pool <==> k in d.pool || UnlockTracker.Fires(Unlocks, r.elapsed, k)
    ensures UnlockTracker.NoDuplicates(d.pool) ==> UnlockTracker.NoDuplicates(r.pool)
    ensures r.batch == d.batch && r.lastBatchTime == d.lastBatchTime && r.activePerType == d.activePerType
  {
    var chaos := UpdateChaos(d.chaos, d.elapsed + delta / 1000.0, delta / 1000.0);
    Director(d.spawnPoints + Earned(chaos.active, delta / 1000.0), UnlockTracker.Apply(d.pool, d.elapsed + delta / 1000.0, Unlocks),
             d.elapsed + delta / 1000.0, chaos, d.batch, d.lastBatchTime, d.activePerType)
  }

  /** `update(time, delta)`. `sceneReady` stands for the scene having both a
      player and an enemy group; `alive` is `scene.enemies.countActive(true)`.
      The clock, unlock and chaos bookkeeping and the accrual of `Tick` happen
      before the population cap is consulted. */
  function Update(d: Director, time: real, delta: real, alive: nat, sceneReady: bool,
                  width: real, height: real, draws: Draws): (s: Step)
    requires ValidDraws(draws)
    ensures !sceneReady ==> s == Step(d, None, 0.0)
    ensures sceneReady ==>
              var t := Tick(d, delta);
              && s.director.elapsed == t.elapsed && s.director.chaos == t.chaos && s.director.pool == t.pool
              && s.director.spawnPoints == t.spawnPoints - s.spent
    ensures sceneReady && alive >= Cap(s.director.chaos.active) ==>
              s.spawned.None? && s.spent == 0.0 && s.director.batch == d.batch
    ensures s.spawned.Some? ==>
              && alive < Cap(s.director.chaos.active)
              && d.batch != [] && s.spawned.value == d.batch[0] && s.director.batch == d.batch[1..]
              && s.director.activePerType == SpawnEnemy(d.activePerType, d.batch[0].kind)
              && time - d.lastBatchTime >= SpawnBatchDelay
    ensures s.spawned.None? ==> s.director.activePerType == d.activePerType
    ensures s.director.batch != d.batch && s.spawned.None? ==>
              && d.batch == [] && alive < Cap(s.director.chaos.active)
              && var k := s.director.batch[0].kind;
              && k in s.director.pool && Allowed(k, s.director.elapsed)
              && Buyable(Tick(d, delta).spawnPoints, d.activePerType, k)
              && |s.director.batch| == (if s.director.chaos.active then draws.batchSize else 1)
              && (forall q :: q in s.director.batch ==> q.kind == k)
              && s.spent == BatchCost(s.director.batch)
    ensures s.director.batch == d.batch ==> s.spent == 0.0
  {
    if !sceneReady then Step(d, None, 0.0)
    else
      var ticked := Tick(d, delta);
      if alive >= Cap(ticked.chaos.active) then Step(ticked, None, 0.0)
      else TrySpawn(ticked, time, width, height, draws)
  }
}
