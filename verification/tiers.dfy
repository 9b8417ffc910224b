/** The three enemy tiers and the weighted draw that picks one of them
    (the `enemyTypes` table and the tier-selection loop of `spawnEnemy`). */
module Tiers {

  datatype Option<T> = None | Some(value: T)

  /** Static configuration of one tier; `chance` is its share of the draw. */
  datatype EnemyType = EnemyType(damage: int, size: int, hp: int, chance: real, points: int)

  /** The tier table, in the order the draw walks it. */
  const EnemyTypes: seq<EnemyType> := [
    EnemyType(1, 15, 1, 0.8, 10),
    EnemyType(3, 30, 3, 0.17, 30),
    EnemyType(5, 45, 5, 0.03, 50)
  ]

  /** Sum of the chances of the first `n` tiers. */
  function PrefixChance(types: seq<EnemyType>, n: nat): real
    requires n <= |types|
  {
    if n == 0 then 0.0 else PrefixChance(types, n - 1) + types[n - 1].chance
  }

  /** The draw is covered by the running total reached at tier `j`. */
  ghost predicate Reaches(types: seq<EnemyType>, rand: real, j: nat)
    requires j < |types|
  {
    rand <= PrefixChance(types, j + 1)
  }

  /** `i` is the first tier whose running total covers the draw. */
  ghost predicate FirstReaching(types: seq<EnemyType>, rand: real, i: nat)
  {
    i < |types| && Reaches(types, rand, i) &&
    forall j :: 0 <= j < i ==> !Reaches(types, rand, j)
  }

  /** The tier the draw selects: the first tier whose running total covers
      the draw, or tier 0 when no running total does. */
  ghost predicate TierFor(types: seq<EnemyType>, rand: real, i: nat)
  {
    i < |types| &&
    ((exists j :: 0 <= j < |types| && Reaches(types, rand, j)) ==> FirstReaching(types, rand, i)) &&
    ((forall j :: 0 <= j < |types| ==> !Reaches(types, rand, j)) ==> i == 0)
  }

  /** Walks the tiers accumulating their chances and stops at the first
      running total that is at least the draw; falls back to tier 0. */
  method SelectTier(types: seq<EnemyType>, rand: real) returns (i: nat)
    requires |types| > 0
    ensures TierFor(types, rand, i)
  {
    var selected: Option<nat> := None;
    var cumulative := 0.0;
    var k := 0;
    while k < |types|
      invariant 0 <= k <= |types|
      invariant cumulative == PrefixChance(types, k)
      invariant selected.None? ==> forall j :: 0 <= j < k ==> !Reaches(types, rand, j)
      invariant selected.Some? ==> FirstReaching(types, rand, selected.value)
    {
      cumulative := cumulative + types[k].chance;
      if rand <= cumulative {
        selected := Some(k);
        break;
      }
      k := k + 1;
    }
    if selected.None? {
      selected := Some(0);
    } else {
      assert Reaches(types, rand, selected.value);
    }
    i := selected.value;
  }

  /** The selected tier is determined by the table and the draw. */
  lemma TierForUnique(types: seq<EnemyType>, rand: real, i: nat, i': nat)
    requires TierFor(types, rand, i) && TierFor(types, rand, i')
    ensures i == i'
  {
  }

  /** For the shipped table the chances add up to 1, and the draw selects
      tier 0 up to 0.8, tier 1 up to 0.97, tier 2 up to 1.0, and tier 0
      again above 1.0 (the fallback). */
  lemma StandardTierBands(rand: real, i: nat)
    requires TierFor(EnemyTypes, rand, i)
    ensures PrefixChance(EnemyTypes, |EnemyTypes|) == 1.0
    ensures i == (if rand <= 0.8 then 0 else if rand <= 0.97 then 1 else if rand <= 1.0 then 2 else 0)
  {
    assert PrefixChance(EnemyTypes, 1) == 0.8;
    assert PrefixChance(EnemyTypes, 2) == 0.97;
    assert PrefixChance(EnemyTypes, 3) == 1.0;
    if rand <= 0.8 {
      assert Reaches(EnemyTypes, rand, 0);
    } else if rand <= 0.97 {
      assert Reaches(EnemyTypes, rand, 1) && !Reaches(EnemyTypes, rand, 0);
    } else if rand <= 1.0 {
      assert Reaches(EnemyTypes, rand, 2) && !Reaches(EnemyTypes, rand, 0) && !Reaches(EnemyTypes, rand, 1);
    } else {
      assert !Reaches(EnemyTypes, rand, 0) && !Reaches(EnemyTypes, rand, 1) && !Reaches(EnemyTypes, rand, 2);
    }
  }
}
