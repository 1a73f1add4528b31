/** The player's stat store (js/entities/Player/StatsPlayer.js): a record of
    named numbers with a universal getter and setter, three arithmetic
    mutators, a change event emitted only when a value really changes, and a
    reset to the constructor defaults that reports every stat it changed.

    The store is a map from key to JavaScript value: a key that was never
    set reads `undefined`, and arithmetic on it yields `NaN`, as in the
    source. The event list is what `_emitChange` would emit to a listening
    player. */
module StatsPlayer {
  import opened Js

  type Store = map<string, Value>

  /** The keys of the constructor's object literal, in declaration order. */
  const DefaultKeys: seq<string> := [
    "maxHP", "armor", "shield", "critChance", "critDamage", "lifesteal", "pierce",
    "projectileSpeed", "globalCD", "aoe", "xpGain", "doubleHit", "knockback",
    "pickupRadius", "dotDamageBonus", "debuffDurationMultiplier", "slowRadiusBonus",
    "moveSpeedMultiplier", "auraRange"
  ]

  /** The constructor's (and `reset`'s) value of each key. */
  function Default(key: string): (v: Value)
    ensures !v.NaN?
    ensures v.Undefined? <==> key !in DefaultKeys
  {
    match key
    case "maxHP" => Num(100.0)
    case "critDamage" => Num(1.5)
    case "projectileSpeed" => Num(1.0)
    case "globalCD" => Num(1.0)
    case "aoe" => Num(1.0)
    case "xpGain" => Num(1.0)
    case "knockback" => Num(1.0)
    case "pickupRadius" => Num(1.0)
    case "debuffDurationMultiplier" => Num(1.0)
    case "moveSpeedMultiplier" => Num(1.0)
    case "auraRange" => Num(110.0)
    case _ => if key in DefaultKeys then Num(0.0) else Undefined
  }

  /** The store the constructor builds. */
  function Defaults(): (s: Store)
    ensures s.Keys == set k | k in DefaultKeys
    ensures forall k :: Get(s, k) == Default(k)
  {
    map k | k in DefaultKeys :: Default(k)
  }

  /** `get(key)` */
  function Get(s: Store, key: string): Value {
    if key in s then s[key] else Undefined
  }

  datatype Change = Change(key: string, value: Value, oldValue: Value)

  /** `_emitChange(key, value, oldValue)`: nothing when `value === oldValue`
      (so a `NaN` result always reports). */
  function EmitChange(key: string, value: Value, oldValue: Value): (r: seq<Change>)
    ensures |r| <= 1
    ensures |r| == 1 <==> !StrictEq(value, oldValue)
    ensures forall c :: c in r ==> c == Change(key, value, oldValue)
  {
    if StrictEq(value, oldValue) then [] else [Change(key, value, oldValue)]
  }

  datatype Update = Update(store: Store, events: seq<Change>)

  /** The common shape of `set`, `addFlat`, `addPercent` and `multiply`:
      store the new value of one key and report it against the old one. */
  function Write(s: Store, key: string, value: Value): (u: Update)
    ensures Get(u.store, key) == value
    ensures forall k :: k != key ==> Get(u.store, k) == Get(s, k)
    ensures u.store.Keys == s.Keys + {key}
    ensures u.events == EmitChange(key, value, Get(s, key))
  {
    Update(s[key := value], EmitChange(key, value, Get(s, key)))
  }

  /** `set(key, value)` */
  function Set(s: Store, key: string, value: Value): (u: Update)
    ensures Get(u.store, key) == value
    ensures forall k :: k != key ==> Get(u.store, k) == Get(s, k)
    ensures |u.events| == 1 <==> !StrictEq(value, Get(s, key))
  {
    Write(s, key, value)
  }

  /** `addFlat(key, amount)`: `stats[key] += amount`. */
  function AddFlat(s: Store, key: string, amount: real): (u: Update)
    ensures Get(s, key).Num? ==> Get(u.store, key) == Num(Get(s, key).n + amount)
    ensures !Get(s, key).Num? ==> Get(u.store, key) == NaN
    ensures forall k :: k != key ==> Get(u.store, k) == Get(s, k)
    ensures |u.events| == 1 <==> !(Get(s, key).Num? && amount == 0.0)
  {
    Write(s, key, Plus(Get(s, key), amount))
  }

  /** `addPercent(key, percent)`: `stats[key] *= (1 + percent)`. */
  function AddPercent(s: Store, key: string, percent: real): (u: Update)
    ensures Get(s, key).Num? ==> Get(u.store, key) == Num(Get(s, key).n * (1.0 + percent))
    ensures !Get(s, key).Num? ==> Get(u.store, key) == NaN
    ensures forall k :: k != key ==> Get(u.store, k) == Get(s, k)
    ensures |u.events| == 1 <==> !(Get(s, key).Num? && Get(s, key).n * percent == 0.0)
  {
    Write(s, key, Times(Get(s, key), 1.0 + percent))
  }

  /** `multiply(key, factor)`: `stats[key] *= factor`. */
  function Multiply(s: Store, key: string, factor: real): (u: Update)
    ensures Get(s, key).Num? ==> Get(u.store, key) == Num(Get(s, key).n * factor)
    ensures !Get(s, key).Num? ==> Get(u.store, key) == NaN
    ensures forall k :: k != key ==> Get(u.store, k) == Get(s, k)
    ensures |u.events| == 1 <==> !(Get(s, key).Num? && Get(s, key).n * factor == Get(s, key).n)
  {
    Write(s, key, Times(Get(s, key), factor))
  }

  /** The change events `reset` emits for `keys`, in order. */
  function ResetEvents(keys: seq<string>, prev: Store): (r: seq<Change>)
    ensures forall c :: c in r ==> c.key in keys && c.value == Default(c.key) && c.oldValue == Get(prev, c.key)
    ensures forall c :: c in r ==> !StrictEq(c.value, c.oldValue)
    ensures forall k :: k in keys && !StrictEq(Default(k), Get(prev, k)) ==> exists c :: c in r && c.key == k
  {
    if keys == [] then []
    else EmitChange(keys[0], Default(keys[0]), Get(prev, keys[0])) + ResetEvents(keys[1..], prev)
  }

  /** `reset()`: exactly the defaults again, and one event per stat whose value changed. */
  function Reset(s: Store): (u: Update)
    ensures forall k :: Get(u.store, k) == Default(k)
    ensures forall c :: c in u.events ==> c.key in DefaultKeys && c.value == Default(c.key) && c.oldValue == Get(s, c.key)
    ensures forall k :: k in DefaultKeys ==> (!StrictEq(Default(k), Get(s, k)) <==> exists c :: c in u.events && c.key == k)
  {
    var events := ResetEvents(DefaultKeys, s);
    assert forall c :: c in events ==> !StrictEq(c.value, c.oldValue);
    Update(Defaults(), events)
  }

  /** Emitting for one more key appends that key's event. */
  lemma PrefixGrows(keys: seq<string>, i: int)
    requires 0 <= i < |keys|
    ensures keys[..i + 1] == keys[..i] + [keys[i]]
  {
  }

  lemma AppendAssoc(a: seq<Change>, b: seq<Change>, c: seq<Change>)
    ensures a + (b + c) == (a + b) + c
  {
  }

  lemma {:induction false} ResetEventsAppend(keys: seq<string>, k: string, prev: Store)
    ensures ResetEvents(keys + [k], prev) == ResetEvents(keys, prev) + EmitChange(k, Default(k), Get(prev, k))
    decreases |keys|
  {
    var last := EmitChange(k, Default(k), Get(prev, k));
    if keys == [] {
      assert [k][1..] == [];
      assert ResetEvents([k], prev) == last + [];
    } else {
      var head := EmitChange(keys[0], Default(keys[0]), Get(prev, keys[0]));
      assert (keys + [k])[0] == keys[0] && (keys + [k])[1..] == keys[1..] + [k];
      assert ResetEvents(keys + [k], prev) == head + ResetEvents(keys[1..] + [k], prev);
      ResetEventsAppend(keys[1..], k, prev);
      AppendAssoc(head, ResetEvents(keys[1..], prev), last);
    }
  }

  /** The loop of `reset` that walks the keys of the new record, one
      `_emitChange` per key; it reports what `ResetEvents` describes. */
  method ResetLoop(keys: seq<string>, s: Store) returns (events: seq<Change>)
    ensures events == ResetEvents(keys, s)
    ensures forall c :: c in events ==> c.key in keys && c.value == Default(c.key) && c.oldValue == Get(s, c.key)
  {
    events := [];
    var i := 0;
    while i < |keys|
      invariant 0 <= i <= |keys|
      invariant events == ResetEvents(keys[..i], s)
    {
      var k := keys[i];
      events := events + EmitChange(k, Default(k), Get(s, k));
      ResetEventsAppend(keys[..i], k, s);
      PrefixGrows(keys, i);
      i := i + 1;
    }
    assert keys[..i] == keys;
  }

  /** No events for keys that already hold their defaults. */
  lemma {:induction false} NoResetEvents(keys: seq<string>, prev: Store)
    requires forall k :: k in keys ==> Get(prev, k) == Default(k)
    ensures ResetEvents(keys, prev) == []
    decreases |keys|
  {
    if keys != [] {
      NoResetEvents(keys[1..], prev);
    }
  }

  /** Resetting a freshly reset store changes nothing and reports nothing. */
  lemma ResetIdempotent(s: Store)
    ensures Reset(Reset(s).store).store == Reset(s).store
    ensures Reset(Reset(s).store).events == []
  {
    NoResetEvents(DefaultKeys, Reset(s).store);
  }

  /** `movementSpeed`: 200 times the speed multiplier. */
  function MovementSpeed(s: Store): (r: Value)
    ensures Get(s, "moveSpeedMultiplier").Num? <==> r.Num?
    ensures r.Num? ==> r.n == 200.0 * Get(s, "moveSpeedMultiplier").n
  {
    Times(Get(s, "moveSpeedMultiplier"), 200.0)
  }

  /** A fresh store moves at 200. */
  lemma DefaultMovementSpeed()
    ensures MovementSpeed(Defaults()) == Num(200.0)
  {
  }
}
