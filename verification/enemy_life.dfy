/** Hit points and the death latch shared by the three enemy entities
    (js/entities/Enemy/enemy.js, js/entities/enemy.js, entities/enemy.js).
    `takeDamage` subtracts the amount and calls `die` when hit points reach
    zero; `die` sets `isDead` first and returns at once when it is already
    set, so the kill events of an enemy are emitted at most once. The entities
    differ only in whether `takeDamage` also ignores inactive enemies. */
module EnemyLife {

  datatype Life = Life(hp: real, active: bool, isDead: bool)

  /** A state change together with whether `die` emitted its kill events. */
  datatype Hit = Hit(life: Life, killed: bool)

  /** `die()` */
  function Die(l: Life): (h: Hit)
    ensures h.life.isDead && h.life.hp == l.hp && h.life.active == l.active
    ensures h.killed <==> !l.isDead
  {
    if l.isDead then Hit(l, false) else Hit(l.(isDead := true), true)
  }

  /** `takeDamage(amount)`; `checksActive` selects the `!this.active ||` guard. */
  function TakeDamage(l: Life, amount: real, checksActive: bool): (h: Hit)
    ensures l.isDead || (checksActive && !l.active) ==> h == Hit(l, false)
    ensures !l.isDead && !(checksActive && !l.active) ==>
              && h.life.hp == l.hp - amount && h.life.active == l.active
              && (h.killed <==> l.hp - amount <= 0.0) && h.life.isDead == h.killed
  {
    if l.isDead || (checksActive && !l.active) then Hit(l, false)
    else
      var hit := l.(hp := l.hp - amount);
      if hit.hp <= 0.0 then Die(hit) else Hit(hit, false)
  }

  function Sum(amounts: seq<real>): real {
    if amounts == [] then 0.0 else amounts[0] + Sum(amounts[1..])
  }

  /** A sequence of hits, with the number of times the kill events were emitted. */
  function Hits(l: Life, amounts: seq<real>, checksActive: bool): (r: (Life, nat))
    decreases |amounts|
  {
    if amounts == [] then (l, 0)
    else
      var h := TakeDamage(l, amounts[0], checksActive);
      var rest := Hits(h.life, amounts[1..], checksActive);
      (rest.0, rest.1 + if h.killed then 1 else 0)
  }

  /** However many hits land, an enemy is reported killed at most once, and
      exactly once when it was alive and ends dead. A living enemy that is
      not killed loses exactly the summed damage. */
  lemma {:induction false} KilledAtMostOnce(l: Life, amounts: seq<real>, checksActive: bool)
    ensures Hits(l, amounts, checksActive).1 <= 1
    ensures Hits(l, amounts, checksActive).1 == 1 <==> !l.isDead && Hits(l, amounts, checksActive).0.isDead
    ensures l.isDead ==> Hits(l, amounts, checksActive) == (l, 0)
    ensures Hits(l, amounts, checksActive).0.active == l.active
    ensures !Hits(l, amounts, checksActive).0.isDead && (l.active || !checksActive) ==>
              Hits(l, amounts, checksActive).0.hp == l.hp - Sum(amounts)
    decreases |amounts|
  {
    if amounts != [] {
      var h := TakeDamage(l, amounts[0], checksActive);
      KilledAtMostOnce(h.life, amounts[1..], checksActive);
    }
  }
}
