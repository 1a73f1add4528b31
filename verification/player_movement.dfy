/** Movement and dash of the current player (js/entities/Player/player.js):
    the direction read from the four movement keys, the velocity with the
    dash multiplier, the facing that follows non-zero input, and the dash
    with its two scheduled callbacks (end of dash after 150 ms, end of
    cooldown after 600 ms). Keyboard state is a parameter. */
module PlayerMovement {
  import opened Js
  import StatsPlayer

  datatype Facing = Up | Down | Left | Right

  datatype Keys = Keys(up: bool, down: bool, left: bool, right: bool, dash: bool)

  datatype Player = Player(speed: real, dashing: bool, dashCooldown: bool, facing: Facing, vx: real, vy: real)

  const DashDuration: real := 150.0
  const DashCooldown: real := 600.0
  const DashMultiplier: real := 3.0

  /** The constructor: the speed is the stat store's `movementSpeed` (the
      earlier guarded computation is overwritten), no dash, facing down. */
  function Init(): (p: Player)
    ensures p.speed == 200.0 && !p.dashing && !p.dashCooldown && p.facing == Down
  {
    StatsPlayer.DefaultMovementSpeed();
    Player(StatsPlayer.MovementSpeed(StatsPlayer.Defaults()).n, false, false, Down, 0.0, 0.0)
  }

  /** The input direction: up beats down and left beats right. */
  function Direction(k: Keys): (d: (int, int))
    ensures -1 <= d.0 <= 1 && -1 <= d.1 <= 1
    ensures d.1 == -1 <==> k.up
    ensures d.1 == 1 <==> !k.up && k.down
    ensures d.0 == -1 <==> k.left
    ensures d.0 == 1 <==> !k.left && k.right
  {
    var vy := if k.up then -1 else if k.down then 1 else 0;
    var vx := if k.left then -1 else if k.right then 1 else 0;
    (vx, vy)
  }

  function Abs(x: int): nat {
    if x < 0 then -x else x
  }

  /** `getFacingDirection(vx, vy)`: the dominant axis, vertical on ties. */
  function GetFacingDirection(vx: int, vy: int): (f: Facing)
    ensures (f == Left || f == Right) <==> Abs(vx) > Abs(vy)
    ensures f == Right ==> vx > 0
    ensures f == Left ==> vx < 0
    ensures f == Down ==> vy > 0
    ensures f == Up ==> vy <= 0
  {
    if Abs(vx) > Abs(vy) then (if vx > 0 then Right else Left)
    else if vy > 0 then Down else Up
  }

  /** `handleMovement()` */
  function HandleMovement(p: Player, k: Keys): (r: Player)
    ensures var s := if p.dashing then DashMultiplier * p.speed else p.speed;
            r.vx == Direction(k).0 as real * s && r.vy == Direction(k).1 as real * s
    ensures Direction(k) == (0, 0) ==> r.facing == p.facing
    ensures Direction(k) != (0, 0) ==> r.facing == GetFacingDirection(Direction(k).0, Direction(k).1)
    ensures r.speed == p.speed && r.dashing == p.dashing && r.dashCooldown == p.dashCooldown
  {
    var (vx, vy) := Direction(k);
    var speed := if p.dashing then p.speed * 3.0 else p.speed;
    var facing := if vx != 0 || vy != 0 then GetFacingDirection(vx, vy) else p.facing;
    p.(vx := vx as real * speed, vy := vy as real * speed, facing := facing)
  }

  /** With single keys held, the facing is the key's direction; opposite keys cancel to the winner. */
  lemma FacingFollowsKeys(p: Player, k: Keys)
    ensures k.up && !k.left && !k.right ==> HandleMovement(p, k).facing == Up
    ensures !k.up && k.down && !k.left && !k.right ==> HandleMovement(p, k).facing == Down
    ensures !k.up && !k.down && k.left ==> HandleMovement(p, k).facing == Left
    ensures !k.up && !k.down && !k.left && k.right ==> HandleMovement(p, k).facing == Right
    ensures (k.up || k.down) && (k.left || k.right) ==> HandleMovement(p, k).facing in {Up, Down}
  {
  }

  /** `handleDash()`: the result and whether the two callbacks were scheduled. */
  function HandleDash(p: Player, k: Keys): (r: (Player, bool))
    ensures r.1 <==> k.dash && !p.dashing && !p.dashCooldown
    ensures r.1 ==> r.0 == p.(dashing := true, dashCooldown := true)
    ensures !r.1 ==> r.0 == p
  {
    if k.dash && !p.dashing && !p.dashCooldown then (p.(dashing := true, dashCooldown := true), true)
    else (p, false)
  }

  /** The callback scheduled for 150 ms later. */
  function DashEnd(p: Player): Player {
    p.(dashing := false)
  }

  /** The callback scheduled for 600 ms later. */
  function CooldownEnd(p: Player): Player {
    p.(dashCooldown := false)
  }

  /** The dash flags `t` milliseconds after a dash started from `p`, with
      every callback that is due by then applied in its scheduled order. */
  function AfterDash(p: Player, t: real): (r: Player)
    requires t >= 0.0
    ensures r.dashing <==> t < DashDuration
    ensures r.dashCooldown <==> t < DashCooldown
    ensures r.speed == p.speed && r.facing == p.facing
  {
    var started := p.(dashing := true, dashCooldown := true);
    if t < DashDuration then started
    else if t < DashCooldown then DashEnd(started)
    else CooldownEnd(DashEnd(started))
  }

  /** A dash always ends before its cooldown does, so a dashing player is
      always on cooldown and no second dash starts until 600 ms have passed. */
  lemma DashWithinCooldown(p: Player, k: Keys, t: real)
    requires HandleDash(p, k).1 && t >= 0.0
    ensures AfterDash(p, t).dashing ==> AfterDash(p, t).dashCooldown
    ensures HandleDash(AfterDash(p, t), k).1 <==> k.dash && t >= DashCooldown
  {
  }
}
