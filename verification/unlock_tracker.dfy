/** The unlock registry both spawn directors share: a list of rules, each
    naming an enemy type and the threshold (seconds of play, or player level)
    from which it may spawn. One pass over the rules appends, in rule order,
    every type whose threshold is met and that the pool does not hold yet.
    Nothing is ever removed from the pool. */
module UnlockTracker {

  datatype Rule = Rule(threshold: real, kind: string)

  /** No type occurs twice in the pool. */
  predicate NoDuplicates(pool: seq<string>) {
    forall i, j :: 0 <= i < j < |pool| ==> pool[i] != pool[j]
  }

  /** Some rule in `rules` names `kind` and its threshold is met at `value`. */
  predicate Fires(rules: seq<Rule>, value: real, kind: string) {
    exists i :: 0 <= i < |rules| && rules[i].kind == kind && value >= rules[i].threshold
  }

  /** `rules.forEach(u => { if (value >= u.threshold && !pool.includes(u.kind)) pool.push(u.kind) })` */
  function Apply(pool: seq<string>, value: real, rules: seq<Rule>): (r: seq<string>)
    ensures |pool| <= |r| && r[..|pool|] == pool
    ensures forall k :: k in r <==> k in pool || Fires(rules, value, k)
    ensures NoDuplicates(pool) ==> NoDuplicates(r)
    decreases |rules|
  {
    if rules == [] then pool
    else
      var u := rules[0];
      var next := if value >= u.threshold && u.kind !in pool then pool + [u.kind] else pool;
      var r := Apply(next, value, rules[1..]);
      assert forall k :: Fires(rules, value, k) <==>
          (k == u.kind && value >= u.threshold) || Fires(rules[1..], value, k) by {
        forall k
          ensures Fires(rules, value, k) ==> (k == u.kind && value >= u.threshold) || Fires(rules[1..], value, k)
        {
          if Fires(rules, value, k) {
            var i :| 0 <= i < |rules| && rules[i].kind == k && value >= rules[i].threshold;
            if i > 0 {
              assert rules[1..][i - 1] == rules[i];
            }
          }
        }
        forall k | Fires(rules[1..], value, k)
          ensures Fires(rules, value, k)
        {
          var i :| 0 <= i < |rules[1..]| && rules[1..][i].kind == k && value >= rules[1..][i].threshold;
          assert rules[i + 1] == rules[1..][i];
        }
      }
      r
  }

  /** Once every type that fires is in the pool, a further pass changes nothing. */
  lemma {:induction false} ApplySaturated(pool: seq<string>, value: real, rules: seq<Rule>)
    requires forall k :: Fires(rules, value, k) ==> k in pool
    ensures Apply(pool, value, rules) == pool
    decreases |rules|
  {
    if rules != [] {
      var u := rules[0];
      assert forall k :: Fires(rules[1..], value, k) ==> Fires(rules, value, k) by {
        forall k | Fires(rules[1..], value, k)
          ensures Fires(rules, value, k)
        {
          var i :| 0 <= i < |rules[1..]| && rules[1..][i].kind == k && value >= rules[1..][i].threshold;
          assert rules[i + 1] == rules[1..][i];
        }
      }
      if value >= u.threshold {
        assert Fires(rules, value, u.kind) by {
          assert rules[0].kind == u.kind;
        }
      }
      ApplySaturated(pool, value, rules[1..]);
    }
  }

  /** Refreshing twice at the same threshold value is the same as refreshing once. */
  lemma ApplyIdempotent(pool: seq<string>, value: real, rules: seq<Rule>)
    ensures Apply(Apply(pool, value, rules), value, rules) == Apply(pool, value, rules)
  {
    ApplySaturated(Apply(pool, value, rules), value, rules);
  }

  /** Refreshing at a later value never loses a type and unlocks at least as much. */
  lemma ApplyMonotone(pool: seq<string>, v1: real, v2: real, rules: seq<Rule>)
    requires v1 <= v2
    ensures forall k :: k in Apply(pool, v1, rules) ==> k in Apply(Apply(pool, v1, rules), v2, rules)
    ensures forall k :: k in Apply(pool, v1, rules) ==> k in Apply(pool, v2, rules)
  {
    forall k | Fires(rules, v1, k)
      ensures Fires(rules, v2, k)
    {
      var i :| 0 <= i < |rules| && rules[i].kind == k && v1 >= rules[i].threshold;
    }
  }
}
