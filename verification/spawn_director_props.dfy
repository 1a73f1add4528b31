/** Properties of whole runs of the spawn director of js/Director/SpawnDirector.js:
    the per-type cap it keeps, the point budget it keeps outside chaos, the
    timing of the chaos window under one-second ticks, and the first second
    of a fresh game. */
module SpawnDirectorProps {
  import opened Js
  import UnlockTracker
  import opened SpawnSampler
  import opened SpawnDirector

  /** Requests of type `kind` waiting in the spawn queue. */
  function Queued(batch: seq<Request>, kind: string): nat {
    if batch == [] then 0 else (if batch[0].kind == kind then 1 else 0) + Queued(batch[1..], kind)
  }

  /** A queue holding only one type holds all its requests for that type. */
  lemma {:induction false} QueuedUniform(batch: seq<Request>, kind: string, k: string)
    requires forall q :: q in batch ==> q.kind == kind
    ensures Queued(batch, k) == if k == kind then |batch| else 0
  {
    if batch != [] {
      assert batch[0] in batch;
      assert forall q :: q in batch[1..] ==> q in batch;
      QueuedUniform(batch[1..], kind, k);
    }
  }

  /** The state invariant of the director: the pool starts with "chaser" and
      never repeats a type, at most one batch (of at most three) is queued,
      and live plus queued enemies of a type exceed its cap by at most two
      (the extra members of a chaos batch bought one below the cap). */
  ghost predicate Valid(d: Director) {
    && |d.pool| > 0 && d.pool[0] == "chaser" && UnlockTracker.NoDuplicates(d.pool)
    && |d.batch| <= 3
    && forall k :: Live(d.activePerType, k) + Queued(d.batch, k) <= Limit(k) + 2
  }

  /** The cap as written in `maxPerType`, reached outside chaos. */
  ghost predicate WithinTypeCaps(d: Director) {
    forall k :: Live(d.activePerType, k) + Queued(d.batch, k) <= Limit(k)
  }

  lemma InitValid()
    ensures Valid(Init()) && WithinTypeCaps(Init())
  {
    forall k ensures Live(Init().activePerType, k) + Queued(Init().batch, k) <= Limit(k) {
      assert Limit(k) >= 3;
    }
  }

  /** One `update` keeps the invariant, whatever the draws, the clock or the population. */
  lemma {:induction false} UpdateKeepsValid(d: Director, time: real, delta: real, alive: nat, sceneReady: bool,
                                            width: real, height: real, draws: Draws)
    requires Valid(d) && ValidDraws(draws)
    ensures Valid(Update(d, time, delta, alive, sceneReady, width, height, draws).director)
  {
    var s := Update(d, time, delta, alive, sceneReady, width, height, draws);
    var n := s.director;
    if sceneReady {
      var t := Tick(d, delta);
      assert n.pool[..|d.pool|] == d.pool;
      assert n.pool[0] == n.pool[..|d.pool|][0];
    }
    forall k ensures Live(n.activePerType, k) + Queued(n.batch, k) <= Limit(k) + 2 {
      if s.spawned.Some? {
        assert Queued(d.batch, k) == (if d.batch[0].kind == k then 1 else 0) + Queued(d.batch[1..], k);
      } else if n.batch != d.batch {
        QueuedUniform(n.batch, n.batch[0].kind, k);
      }
    }
  }

  /** Outside chaos a purchase is a single enemy, so the per-type caps of
      `maxPerType` hold exactly, not just up to the chaos overshoot. */
  lemma {:induction false} CalmUpdateKeepsTypeCaps(d: Director, time: real, delta: real, alive: nat, sceneReady: bool,
                                                   width: real, height: real, draws: Draws)
    requires WithinTypeCaps(d) && ValidDraws(draws)
    requires !Update(d, time, delta, alive, sceneReady, width, height, draws).director.chaos.active
    ensures WithinTypeCaps(Update(d, time, delta, alive, sceneReady, width, height, draws).director)
  {
    var s := Update(d, time, delta, alive, sceneReady, width, height, draws);
    var n := s.director;
    forall k ensures Live(n.activePerType, k) + Queued(n.batch, k) <= Limit(k) {
      if s.spawned.Some? {
        assert Queued(d.batch, k) == (if d.batch[0].kind == k then 1 else 0) + Queued(d.batch[1..], k);
      } else if n.batch != d.batch {
        QueuedUniform(n.batch, n.batch[0].kind, k);
      }
    }
  }

  /** The destroy hook of a spawned enemy keeps both invariants. */
  lemma ReleaseKeepsValid(d: Director, kind: string)
    requires kind in d.activePerType
    ensures Valid(d) ==> Valid(d.(activePerType := Release(d.activePerType, kind)))
    ensures WithinTypeCaps(d) ==> WithinTypeCaps(d.(activePerType := Release(d.activePerType, kind)))
  {
    var r := Release(d.activePerType, kind);
    assert forall k :: Live(r, k) <= Live(d.activePerType, k);
  }

  /** Spawning then destroying an enemy restores every live count. */
  lemma ReleaseUndoesSpawn(ledger: map<string, int>, kind: string)
    ensures kind in SpawnEnemy(ledger, kind)
    ensures forall k :: Live(Release(SpawnEnemy(ledger, kind), kind), k) == Live(ledger, k)
  {
  }

  /** Outside chaos the director never spends points it does not have. */
  lemma {:induction false} CalmUpdateKeepsPointsNonNegative(d: Director, time: real, delta: real, alive: nat,
                                                            sceneReady: bool, width: real, height: real, draws: Draws)
    requires ValidDraws(draws) && d.spawnPoints >= 0.0 && delta >= 0.0
    requires !Update(d, time, delta, alive, sceneReady, width, height, draws).director.chaos.active
    ensures Update(d, time, delta, alive, sceneReady, width, height, draws).director.spawnPoints >= 0.0
  {
    var s := Update(d, time, delta, alive, sceneReady, width, height, draws);
    if sceneReady {
      var t := Tick(d, delta);
      assert t.spawnPoints >= d.spawnPoints;
      if s.director.batch != d.batch && s.spawned.None? {
        var k := s.director.batch[0].kind;
        BatchCostUniform(s.director.batch, k);
      }
    }
  }

  /** During chaos a purchase charges the whole batch: the chosen type's cost
      times the drawn batch size, however few of them the points covered. */
  lemma ChaosChargesWholeBatch(d: Director, time: real, width: real, height: real, draws: Draws)
    requires ValidDraws(draws) && d.batch == [] && d.chaos.active
    requires Pick(d, draws).Some? && Sample(draws.candidates, SampleAttempts, width, height).Some?
    ensures TrySpawn(d, time, width, height, draws).director.spawnPoints
              == d.spawnPoints - Charge(Pick(d, draws).value, draws.batchSize)
  {
    var k := Pick(d, draws).value;
    var s := Place(d, k, time, width, height, draws);
    assert Purchase(d, time, width, height, draws) == s;
    assert TrySpawn(d, time, width, height, draws) == s;
    BatchCostUniform(s.director.batch, k);
    assert s.spent == Charge(k, |s.director.batch|);
  }

  /** So the budget can go negative: with one point and only chasers
      unlocked, a chaos purchase of three chasers leaves -2, whatever the
      shuffle. */
  lemma ChaosCanOverdraw(draws: Draws)
    requires ValidDraws(draws) && draws.batchSize == 3
    requires |draws.candidates| > 0 && InWorld(draws.candidates[0], 100.0, 100.0)
    ensures TrySpawn(Director(1.0, ["chaser"], 0.0, Chaos(true, 10.0, 60.0), [], 0.0, map[]), 0.0, 100.0, 100.0, draws)
              .director.spawnPoints == -2.0
  {
    var d := Director(1.0, ["chaser"], 0.0, Chaos(true, 10.0, 60.0), [], 0.0, map[]);
    assert Allowed("chaser", 0.0);
    assert "chaser" in AllowedPool(d.pool, d.elapsed) && Buyable(1.0, map[], "chaser");
    assert Pick(d, draws) == Some("chaser");
    ChaosChargesWholeBatch(d, 0.0, 100.0, 100.0, draws);
    assert Charge("chaser", 3) == 3.0;
  }

  /** The bookkeeping of a game's first second: 1.2 points, nothing
      unlocked, no chaos yet. */
  lemma FirstTick()
    ensures Tick(Init(), 1000.0) == Director(1.2, ["chaser"], 1.0, Chaos(false, 0.0, FirstChaosAt), [], 0.0, map[])
  {
    assert forall i :: 0 <= i < |Unlocks| ==> Unlocks[i].threshold >= 60.0;
    UnlockTracker.ApplySaturated(["chaser"], 1.0, Unlocks);
  }

  /** The first second of a game: one chaser is bought for one of the 1.2
      points earned, and queued rather than spawned. */
  lemma FirstSecond(draws: Draws)
    requires ValidDraws(draws) && |draws.candidates| > 0 && InWorld(draws.candidates[0], 5000.0, 5000.0)
    ensures
      var s := Update(Init(), 1000.0, 1000.0, 0, true, 5000.0, 5000.0, draws);
      && s.spawned.None? && s.spent == 1.0 && s.director.spawnPoints == 0.2
      && |s.director.batch| == 1 && s.director.batch[0].kind == "chaser"
  {
    var t := Tick(Init(), 1000.0);
    FirstTick();
    assert Allowed("chaser", 1.0);
    assert "chaser" in AllowedPool(t.pool, t.elapsed) && Buyable(t.spawnPoints, t.activePerType, "chaser");
    assert Pick(t, draws) == Some("chaser");
    CalmBuysOne(t, 1000.0, 5000.0, 5000.0, draws);
    assert Update(Init(), 1000.0, 1000.0, 0, true, 5000.0, 5000.0, draws) == TrySpawn(t, 1000.0, 5000.0, 5000.0, draws);
    ChaserCostsOne();
  }

  /** Outside chaos a purchase queues a single request of the chosen type
      and charges its cost once. */
  lemma CalmBuysOne(d: Director, time: real, width: real, height: real, draws: Draws)
    requires ValidDraws(draws) && d.batch == [] && !d.chaos.active
    requires Pick(d, draws).Some? && Sample(draws.candidates, SampleAttempts, width, height).Some?
    ensures var s := TrySpawn(d, time, width, height, draws);
            && s.spawned.None? && |s.director.batch| == 1 && s.director.batch[0].kind == Pick(d, draws).value
            && s.spent == Cost(Pick(d, draws).value) && s.director.spawnPoints == d.spawnPoints - s.spent
  {
    var k := Pick(d, draws).value;
    var s := Place(d, k, time, width, height, draws);
    assert Purchase(d, time, width, height, draws) == s;
    assert TrySpawn(d, time, width, height, draws) == s;
    BatchCostUniform(s.director.batch, k);
  }

  lemma ChaserCostsOne()
    ensures Cost("chaser") == 1.0
  {
  }

  // ---------------------------------------------------------------------
  // The chaos window under one-second ticks

  /** `n` one-second ticks of the chaos state machine, the first at `elapsed + 1`. */
  function ChaosRun(c: Chaos, elapsed: real, n: nat): Chaos
    decreases n
  {
    if n == 0 then c else ChaosRun(UpdateChaos(c, elapsed + 1.0, 1.0), elapsed + 1.0, n - 1)
  }

  lemma {:induction false} ChaosRunSplit(c: Chaos, elapsed: real, a: nat, b: nat)
    ensures ChaosRun(c, elapsed, a + b) == ChaosRun(ChaosRun(c, elapsed, a), elapsed + a as real, b)
    decreases a
  {
    if a > 0 {
      ChaosRunSplit(UpdateChaos(c, elapsed + 1.0, 1.0), elapsed + 1.0, a - 1, b);
    }
  }

  /** Before its scheduled start nothing happens. */
  lemma {:induction false} CalmRun(c: Chaos, elapsed: real, n: nat)
    requires !c.active && elapsed + n as real < c.nextAt
    ensures ChaosRun(c, elapsed, n) == c
    decreases n
  {
    if n > 0 {
      CalmRun(c, elapsed + 1.0, n - 1);
    }
  }

  /** While the timer exceeds the ticks left, the event stays on and counts down. */
  lemma {:induction false} CountdownRun(c: Chaos, elapsed: real, n: nat)
    requires c.active && c.timer > n as real
    ensures ChaosRun(c, elapsed, n) == c.(timer := c.timer - n as real)
    decreases n
  {
    if n > 0 {
      CountdownRun(c.(timer := c.timer - 1.0), elapsed + 1.0, n - 1);
    }
  }

  /** The tick that lands on the scheduled start turns the event on and
      already spends one second of it. */
  lemma ChaosStarts(c: Chaos, elapsed: real, m: nat)
    requires !c.active && m >= 1 && elapsed + m as real == c.nextAt
    ensures ChaosRun(c, elapsed, m) == Chaos(true, ChaosDuration - 1.0, c.nextAt)
  {
    CalmRun(c, elapsed, m - 1);
    ChaosRunSplit(c, elapsed, m - 1, 1);
    var last := elapsed + (m - 1) as real;
    assert ChaosRun(c, last, 1) == ChaosRun(UpdateChaos(c, last + 1.0, 1.0), last + 1.0, 0);
  }

  /** With one-second ticks that land on the scheduled start, chaos is on for
      exactly 19 ticks (the start tick already decrements the 20-second timer)
      and the next event is scheduled 90 seconds after the tick that ended it. */
  lemma ChaosWindow(c: Chaos, elapsed: real, m: nat)
    requires !c.active && m >= 1 && elapsed + m as real == c.nextAt
    ensures ChaosRun(c, elapsed, m) == Chaos(true, ChaosDuration - 1.0, c.nextAt)
    ensures forall j :: m <= j < m + 19 ==> ChaosRun(c, elapsed, j).active
    ensures ChaosRun(c, elapsed, m + 19) == Chaos(false, 0.0, c.nextAt + 19.0 + ChaosCooldown)
  {
    ChaosStarts(c, elapsed, m);
    var on := ChaosRun(c, elapsed, m);
    forall j | m <= j < m + 19 ensures ChaosRun(c, elapsed, j).active {
      ChaosRunSplit(c, elapsed, m, j - m);
      CountdownRun(on, elapsed + m as real, j - m);
    }
    ChaosEnds(c, elapsed, m);
  }

  /** Nineteen ticks after the start the event is off again, and the next one
      is due 90 seconds after that tick. */
  lemma ChaosEnds(c: Chaos, elapsed: real, m: nat)
    requires ChaosRun(c, elapsed, m) == Chaos(true, ChaosDuration - 1.0, c.nextAt)
    requires elapsed + m as real == c.nextAt
    ensures ChaosRun(c, elapsed, m + 19) == Chaos(false, 0.0, c.nextAt + 19.0 + ChaosCooldown)
  {
    var on := ChaosRun(c, elapsed, m);
    ChaosRunSplit(c, elapsed, m, 18);
    CountdownRun(on, elapsed + m as real, 18);
    var near := ChaosRun(c, elapsed, m + 18);
    assert near == Chaos(true, 1.0, c.nextAt);
    ChaosRunSplit(c, elapsed, m + 18, 1);
    var last := elapsed + (m + 18) as real;
    assert ChaosRun(near, last, 1) == ChaosRun(UpdateChaos(near, last + 1.0, 1.0), last + 1.0, 0);
  }

  /** The first event of a game played in one-second ticks: on from second 60
      through second 78, off at second 79, next due at second 169. */
  lemma FirstChaosWindow()
    ensures !ChaosRun(Init().chaos, 0.0, 59).active
    ensures forall j :: 60 <= j <= 78 ==> ChaosRun(Init().chaos, 0.0, j).active
    ensures ChaosRun(Init().chaos, 0.0, 79) == Chaos(false, 0.0, 169.0)
  {
    CalmRun(Init().chaos, 0.0, 59);
    ChaosWindow(Init().chaos, 0.0, 60);
  }
}
