/** `Card.__init__` of card_gen.py: power rating, rarity, the secondary
    attack and the ability flag drawn from a sub-stream seeded by the card's
    health, and the card id. The ambient generator state is saved before the
    seed draw and restored after the sub-stream draws. */
module Cards {
  import opened Rarity
  import opened Rounding
  import opened Identity
  import opened PyRandom

  /** `high_damage_dual_attack_threshold`. */
  const DualAttackThreshold: int := 70
  /** `ability_base_chance`. */
  const AbilityBaseChance: real := 0.04
  /** `extreme_health_ability_boost`. */
  const ExtremeHealthAbilityBoost: real := 0.60
  /** The health at which the ability chance is lowest. */
  const HealthReference: int := 70

  /** A finished card; no field changes after construction. */
  datatype Card = Card(
    health: int,
    primaryAttack: int,
    powerRating: real,
    rarity: Tier,
    hasAbility: bool,
    secondaryAttack: int,
    uniqueCardId: string)

  /** `health + 1.2 * primary_attack`, exactly. */
  function PowerRating(health: int, attack: int): real
  {
    health as real + 1.2 * attack as real
  }

  /** |health - 70|. */
  function Distance(health: int): nat
  {
    if health >= HealthReference then health - HealthReference else HealthReference - health
  }

  /** `round(attack * u / 10) * 10` for the sub-stream draw
      u = `random.uniform(0.25, 0.5)`, taken only when attack >= 70. */
  function DualAttack(attack: int, u: real): (s: int)
    requires attack >= DualAttackThreshold && 0.25 <= u <= 0.5
    ensures s % 10 == 0 && 20 <= s <= attack
    ensures attack as real * 0.25 - 5.0 <= s as real <= attack as real * 0.5 + 5.0
    ensures attack as real * u - 5.0 <= s as real <= attack as real * u + 5.0
  {
    var x := attack as real * u / 10.0;
    ScaleBounds(attack as real, u, x);
    DualAttackBounds(attack, x);
    RoundHalfEven(x) * 10
  }

  lemma DualAttackBounds(attack: int, x: real)
    requires attack >= DualAttackThreshold
    requires attack as real * 0.025 <= x <= attack as real * 0.05
    ensures var s := RoundHalfEven(x) * 10;
      && 20 <= s <= attack
      && attack as real * 0.25 - 5.0 <= s as real <= attack as real * 0.5 + 5.0
  {
  }

  lemma ScaleBounds(a: real, u: real, x: real)
    requires a >= 0.0 && 0.25 <= u <= 0.5 && x == a * u / 10.0
    ensures a * 0.025 <= x <= a * 0.05
  {
    ProductNonNegative(a, u - 0.25);
    ProductNonNegative(a, 0.5 - u);
    assert a * (u - 0.25) == a * u - a * 0.25;
    assert a * (0.5 - u) == a * 0.5 - a * u;
  }

  lemma ProductNonNegative(p: real, q: real)
    requires p >= 0.0 && q >= 0.0
    ensures p * q >= 0.0
  {
  }

  /** `ability_base_chance + abs(health - 70) / (100 - 20) * extreme_health_ability_boost`. */
  function AbilityChance(health: int): (c: real)
    ensures c >= AbilityBaseChance
    ensures c == AbilityBaseChance <==> health == HealthReference
  {
    AbilityBaseChance + Distance(health) as real / 80.0 * ExtremeHealthAbilityBoost
  }

  /** The chance is symmetric about health 70. */
  lemma AbilityChanceSymmetric(d: int)
    ensures AbilityChance(HealthReference + d) == AbilityChance(HealthReference - d)
  {
  }

  /** The chance grows strictly with the distance of health from 70. */
  lemma AbilityChanceGrows(h1: int, h2: int)
    ensures Distance(h1) <= Distance(h2) ==> AbilityChance(h1) <= AbilityChance(h2)
    ensures Distance(h1) < Distance(h2) ==> AbilityChance(h1) < AbilityChance(h2)
  {
  }

  /** The chance exceeds 1 exactly when health is more than 128 from 70; then
      every draw of `random.random()` grants the ability. */
  lemma AbilityCertain(health: int, roll: real)
    requires 0.0 <= roll < 1.0
    ensures AbilityChance(health) > 1.0 <==> Distance(health) > 128
    ensures Distance(health) > 128 ==> roll < AbilityChance(health)
  {
  }

  /** The card built from health and attack when the ambient generator is in
      state `ambient`: k = `randint(1, 3)` from the ambient state, then the
      optional uniform draw and the `random()` draw from the state
      `seed(health * k)` installs. */
  function CardOf(rng: Random, health: int, attack: int, ambient: GenState, sha: HashInput -> nat): (c: Card)
    requires rng.Laws()
    ensures c.health == health && c.primaryAttack == attack
    ensures c.powerRating == PowerRating(health, attack)
    ensures c.rarity == Categorize(c.powerRating)
    ensures (c.secondaryAttack == 0) == (attack < DualAttackThreshold)
    ensures attack >= DualAttackThreshold ==> c.secondaryAttack % 10 == 0 && 20 <= c.secondaryAttack <= attack
    ensures Distance(health) > 128 ==> c.hasAbility
    ensures |c.uniqueCardId| == IdLength && IsBase36(c.uniqueCardId)
    ensures exists k :: 1 <= k <= 3 && c.uniqueCardId == ShortId(sha(CardKey(health, attack, k)))
  {
    var k := rng.randInt(ambient, 1, 3).0;
    var sub := rng.seeded(health * k);
    var drawn :=
      if attack >= DualAttackThreshold then
        var u := rng.uniform(sub, 0.25, 0.5);
        (DualAttack(attack, u.0), u.1)
      else (0, sub);
    var roll := rng.unit(drawn.1).0;
    AbilityCertain(health, roll);
    var power := PowerRating(health, attack);
    Card(health, attack, power, Categorize(power), roll < AbilityChance(health), drawn.0,
         ShortId(sha(CardKey(health, attack, k))))
  }

  /** The ambient state matters only through the seed k it yields: two states
      that draw the same k build the same card (the sub-stream is determined
      by health and k alone). */
  lemma CardDeterminedBySeed(rng: Random, health: int, attack: int, s1: GenState, s2: GenState, sha: HashInput -> nat)
    requires rng.Laws()
    requires rng.randInt(s1, 1, 3).0 == rng.randInt(s2, 1, 3).0
    ensures CardOf(rng, health, attack, s1, sha) == CardOf(rng, health, attack, s2, sha)
  {
  }

  /** The two worked examples: (80, 70) has power 164, is Rare and has a
      secondary attack; (30, 10) has power 42, is Common and has none. */
  lemma CardExamples(rng: Random, s: GenState, sha: HashInput -> nat)
    requires rng.Laws()
    ensures CardOf(rng, 80, 70, s, sha).powerRating == 164.0
    ensures CardOf(rng, 80, 70, s, sha).rarity == Rare
    ensures CardOf(rng, 80, 70, s, sha).secondaryAttack >= 20
    ensures CardOf(rng, 30, 10, s, sha).powerRating == 42.0
    ensures CardOf(rng, 30, 10, s, sha).rarity == Common
    ensures CardOf(rng, 30, 10, s, sha).secondaryAttack == 0
  {
  }

  /** `Card(health, primary_attack)`: the card is CardOf the ambient state on
      entry, and the ambient state is exactly restored, so even the draw of k
      is undone. */
  method NewCard(health: int, attack: int, rng: Random, sha: HashInput -> nat) returns (c: Card)
    requires rng.Laws()
    modifies rng
    ensures rng.state == old(rng.state)
    ensures c == CardOf(rng, health, attack, old(rng.state), sha)
  {
    var power := PowerRating(health, attack);
    var rarity := Categorize(power);
    var backup := rng.GetState();
    var k := rng.RandInt(1, 3);
    rng.Seed(health * k);
    var secondary := 0;
    if attack >= DualAttackThreshold {
      var u := rng.Uniform(0.25, 0.5);
      secondary := DualAttack(attack, u);
    }
    var roll := rng.Unit();
    var hasAbility := roll < AbilityChance(health);
    rng.SetState(backup);
    var id := ShortHashCaseInsensitive(sha(CardKey(health, attack, k)));
    c := Card(health, attack, power, rarity, hasAbility, secondary, id);
  }
}
