/** The first player entity (entities/player.js): experience and levels,
    hit points, and the chosen class. Levelling multiplies the threshold by
    1.5 (rounded down), and `gainXP` levels up until the experience is
    below the threshold. */
module LegacyPlayer {
  import opened Js

  datatype Progress = Progress(level: int, xp: real, xpToNext: int)

  /** The constructor's progress: level 1, no experience, threshold 10. It
      needs no repair and has no level pending. */
  function InitialProgress(): (r: Progress)
    ensures Repaired(r) == r && r.xp < r.xpToNext as real
    ensures GainXP(r, 0.0).levels == 0
  {
    Progress(1, 0.0, 10)
  }

  const InitialMaxHP: real := 100.0

  /** `levelUp()`: one level, the threshold consumed and raised by half. */
  function LevelUp(p: Progress): (r: Progress)
    ensures r.level == p.level + 1
    ensures r.xp + p.xpToNext as real == p.xp
    ensures p.xpToNext >= 1 ==> p.xpToNext <= r.xpToNext
    ensures p.xpToNext >= 2 ==> p.xpToNext < r.xpToNext
    ensures r.xpToNext as real <= 1.5 * p.xpToNext as real < r.xpToNext as real + 1.0
  {
    Progress(p.level + 1, p.xp - p.xpToNext as real, (1.5 * p.xpToNext as real).Floor)
  }

  /** The thresholds consumed and the levels gained by the `while` of `gainXP`. */
  datatype Climb = Climb(progress: Progress, consumed: int, levels: nat)

  /** The `while (xp >= xpToNext) levelUp()` loop. Each round consumes at
      least one point of experience, so it stops. */
  function Climbing(p: Progress): (r: Climb)
    requires p.xpToNext >= 1
    ensures r.progress.xp < r.progress.xpToNext as real
    ensures r.progress.xp + r.consumed as real == p.xp
    ensures r.progress.level == p.level + r.levels
    ensures r.progress.xpToNext >= p.xpToNext
    ensures r.levels == 0 <==> p.xp < p.xpToNext as real
    ensures p.xp >= 0.0 ==> r.progress.xp >= 0.0
    decreases p.xp.Floor
  {
    if p.xp < p.xpToNext as real then Climb(p, 0, 0)
    else
      var next := LevelUp(p);
      FloorShift(p.xp, p.xpToNext);
      var rest := Climbing(next);
      Climb(rest.progress, rest.consumed + p.xpToNext, rest.levels + 1)
  }

  /** Every level the loop gains spends at least the starting threshold,
      since the threshold only grows. */
  lemma {:induction false} ClimbingSpendsThresholds(p: Progress)
    requires p.xpToNext >= 1
    ensures Climbing(p).consumed >= Climbing(p).levels * p.xpToNext
    decreases p.xp.Floor
  {
    if p.xp < p.xpToNext as real {
      assert Climbing(p) == Climb(p, 0, 0);
    } else {
      var next := LevelUp(p);
      FloorShift(p.xp, p.xpToNext);
      ClimbingSpendsThresholds(next);
      var rest := Climbing(next);
      assert Climbing(p) == Climb(rest.progress, rest.consumed + p.xpToNext, rest.levels + 1);
      OneMoreThreshold(rest.consumed, rest.levels, p.xpToNext, next.xpToNext);
    }
  }

  /** Having spent `levels` thresholds of at least `b`, one more threshold
      `a <= b` keeps the count of at least `a` per level. */
  lemma OneMoreThreshold(consumed: int, levels: nat, a: int, b: int)
    requires a <= b && consumed >= levels * b
    ensures consumed + a >= (levels + 1) * a
  {
    assert levels * b - levels * a == levels * (b - a);
    assert (levels + 1) * a == levels * a + a;
  }

  /** The repairs `gainXP` makes before the loop. */
  function Repaired(p: Progress): (r: Progress)
    ensures r.xpToNext >= 1
    ensures r.level == if p.level == 0 then 1 else p.level
    ensures p.xpToNext >= 1 ==> r.xpToNext == p.xpToNext
  {
    Progress(if p.level == 0 then 1 else p.level, p.xp, if p.xpToNext <= 0 then 10 else p.xpToNext)
  }

  /** `gainXP(amount)`: the final progress and how many level-ups (each
      scheduling the upgrade menu) happened. */
  function GainXP(p: Progress, amount: real): (r: Climb)
    ensures r.progress.xp < r.progress.xpToNext as real
    ensures r.progress.xp + r.consumed as real == p.xp + amount
    ensures r.progress.level == Repaired(p).level + r.levels
    ensures r.levels == 0 <==> p.xp + amount < Repaired(p).xpToNext as real
  {
    Climbing(Repaired(p).(xp := p.xp + amount))
  }

  /** The same loop as a `while`, level-up by level-up. */
  method GainXPLoop(p: Progress, amount: real) returns (r: Progress, levels: nat)
    ensures r == GainXP(p, amount).progress && levels == GainXP(p, amount).levels
    ensures r.xp < r.xpToNext as real
  {
    r := Repaired(p).(xp := p.xp + amount);
    levels := 0;
    while r.xp >= r.xpToNext as real
      invariant r.xpToNext >= 1
      invariant Climbing(r).progress == GainXP(p, amount).progress
      invariant Climbing(r).levels + levels == GainXP(p, amount).levels
      decreases r.xp.Floor
    {
      r := LevelUp(r);
      levels := levels + 1;
    }
  }

  /** Gaining exactly the threshold from a fresh player reaches level 2
      with threshold 15; 25 points reach level 3 with threshold 22. */
  lemma FirstLevels()
    ensures GainXP(InitialProgress(), 10.0).progress == Progress(2, 0.0, 15)
    ensures GainXP(InitialProgress(), 25.0).progress == Progress(3, 0.0, 22)
    ensures GainXP(InitialProgress(), 25.0).levels == 2
  {
    assert Climbing(Progress(1, 10.0, 10)) == Climb(Progress(2, 0.0, 15), 10, 1) by {
      assert Climbing(Progress(2, 0.0, 15)) == Climb(Progress(2, 0.0, 15), 0, 0);
    }
    assert Climbing(Progress(1, 25.0, 10)) == Climb(Progress(3, 0.0, 22), 25, 2) by {
      assert Climbing(Progress(3, 0.0, 22)) == Climb(Progress(3, 0.0, 22), 0, 0);
      assert Climbing(Progress(2, 15.0, 15)) == Climb(Progress(3, 0.0, 22), 15, 1);
    }
  }

  // ---------------------------------------------------------------------
  // Hit points

  datatype Health = Health(currentHP: Value, maxHP: real)

  /** `takeDamage(amount)`: a non-number is ignored, the result is clamped
      at zero, and `die` runs exactly when the hit points fall to zero or below. */
  function TakeDamage(h: Health, amount: Value): (r: (Health, bool))
    ensures amount.Undefined? ==> r == (h, false)
    ensures r.0.maxHP == h.maxHP
    ensures h.currentHP.Num? && amount.Num? ==>
              && r.0.currentHP == Num(Max(0.0, h.currentHP.n - amount.n))
              && (r.1 <==> h.currentHP.n - amount.n <= 0.0)
    ensures r.0.currentHP.Num? ==> r.0.currentHP.n >= 0.0 || r.0 == h
    ensures !amount.Undefined? && !(h.currentHP.Num? && amount.Num?) ==> r == (h.(currentHP := NaN), false)
  {
    if amount.Undefined? then (h, false)
    else
      var left := if amount.Num? then Plus(h.currentHP, -amount.n) else NaN;
      if left.Num? && left.n <= 0.0 then (h.(currentHP := Num(0.0)), true)
      else (h.(currentHP := left), false)
  }

  /** `heal(amount)`: a non-number is ignored; otherwise the hit points
      rise by the amount but never above the maximum. */
  function Heal(h: Health, amount: Value): (r: Health)
    ensures amount.Undefined? ==> r == h
    ensures r.maxHP == h.maxHP
    ensures h.currentHP.Num? && amount.Num? ==>
              r.currentHP.Num? && r.currentHP.n <= h.maxHP
              && r.currentHP.n == Min(h.maxHP, h.currentHP.n + amount.n)
    ensures h.currentHP.Num? && amount.Num? && amount.n >= 0.0 && h.currentHP.n <= h.maxHP ==>
              h.currentHP.n <= r.currentHP.n
  {
    if amount.Undefined? then h
    else h.(currentHP := if amount.Num? then MinValue(Num(h.maxHP), Plus(h.currentHP, amount.n)) else NaN)
  }

  /** Healing after damage never exceeds the maximum and never leaves the
      player below where the damage left them. */
  lemma HealAfterDamage(h: Health, damage: real, amount: real)
    requires h.currentHP.Num? && 0.0 <= h.currentHP.n <= h.maxHP && damage >= 0.0 && amount >= 0.0
    ensures var hurt := TakeDamage(h, Num(damage)).0;
            var healed := Heal(hurt, Num(amount));
            0.0 <= hurt.currentHP.n <= healed.currentHP.n <= h.maxHP
  {
  }

  // ---------------------------------------------------------------------
  // Class selection

  /** An argument for the class: a string, an object with an optional
      `name`, or nothing. */
  datatype ClassArg = Name(s: string) | Object(name: Option<string>) | Nothing

  /** `selectClass(classObj)`: a string is taken as it is; an object gives
      its name, an empty or missing name giving null. */
  function SelectClass(arg: ClassArg): (r: Option<string>)
    ensures arg.Name? ==> r == Some(arg.s)
    ensures arg.Nothing? ==> r == None
    ensures arg.Object? ==> (r.Some? <==> arg.name.Some? && arg.name.value != "")
    ensures r.Some? && arg.Object? ==> r == arg.name
  {
    match arg
    case Name(s) => Some(s)
    case Object(name) => if name.Some? && name.value != "" then name else None
    case Nothing => None
  }

  /** The constructor's class: as `selectClass`, but a falsy argument
      (nothing, or the empty string) leaves it null. */
  function InitialClass(arg: ClassArg): (r: Option<string>)
    ensures arg != Name("") ==> r == SelectClass(arg)
    ensures arg == Name("") ==> r == None
  {
    if arg.Nothing? || arg == Name("") then None else SelectClass(arg)
  }
}
