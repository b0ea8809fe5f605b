/** The pack simulation of card_gen.py's main block: for each pack, build a
    card from every sampled health of at least 20, sort the cards by power,
    print and tally the worst card, thirteen sampled interior cards and the
    best card, and keep the best card seen, the card count and the ability
    statistics. */
module PackSession {
  import opened Outcome
  import opened Rarity
  import opened Identity
  import opened PyRandom
  import opened Stats
  import opened Cards
  import opened Sorting

  /** The sort key of `valid_cards.sort(key=lambda x: x.power_rating)`. */
  function Power(c: Card): real
  {
    c.powerRating
  }

  /** What every card of a pool satisfies. */
  predicate WellFormed(c: Card)
  {
    && c.health >= HealthFloor && c.health % 10 == 0
    && c.primaryAttack % 10 == 0 && 0 <= c.primaryAttack <= c.health
    && c.powerRating == PowerRating(c.health, c.primaryAttack)
    && c.rarity == Categorize(c.powerRating)
  }

  /** The cards the inner loop builds from one pack's samples when the ambient
      generator starts in state s, and the state it leaves: per surviving
      sample one `uniform` draw for the attack, then a card, which leaves the
      ambient state as it found it. */
  function Pool(rng: Random, s: GenState, samples: seq<real>, sha: HashInput -> nat): (r: (seq<Card>, GenState))
    requires rng.Laws()
    ensures |r.0| == Survivors(samples)
    ensures forall i :: 0 <= i < |r.0| ==> WellFormed(r.0[i])
  {
    if samples == [] then ([], s)
    else
      var prev := Pool(rng, s, samples[..|samples| - 1], sha);
      var h := HealthOf(samples[|samples| - 1]);
      if h < HealthFloor then prev
      else
        var next := NextCard(rng, prev.1, h, sha);
        (prev.0 + [next.0], next.1)
  }

  /** Lines 255-257 for a surviving health h from state s: one `uniform`
      draw for the attack, then the card, and the state after the draw. */
  function NextCard(rng: Random, s: GenState, h: int, sha: HashInput -> nat): (r: (Card, GenState))
    requires rng.Laws() && h >= HealthFloor && h % 10 == 0
    ensures WellFormed(r.0) && r.0.health == h
  {
    var u := rng.uniform(s, 0.3 * h as real, h as real);
    (CardOf(rng, h, DeriveAttack(h, u.0), u.1, sha), u.1)
  }

  // ----- ability statistics -----

  /** `abilities_made`, `ability_stats` and `ability_bins`. */
  datatype AbilityLog = AbilityLog(made: nat, stats: seq<int>, bins: map<int, nat>)

  /** `ability_bins` counts the occurrences of each health in `ability_stats`. */
  ghost predicate BinsMatch(bins: map<int, nat>, stats: seq<int>)
  {
    && (forall h :: h in bins <==> multiset(stats)[h] > 0)
    && (forall h :: h in bins ==> bins[h] == multiset(stats)[h])
  }

  /** The keys of `ability_bins` in insertion order, which is the order in
      which `ability_bins.values()` lists the counts: each health of
      `ability_stats` exactly once, in order of first appearance. */
  function KeyOrder(stats: seq<int>): (keys: seq<int>)
    ensures forall h :: multiset(keys)[h] == if multiset(stats)[h] > 0 then 1 else 0
  {
    if stats == [] then []
    else
      var init := stats[..|stats| - 1];
      var h := stats[|stats| - 1];
      assert stats == init + [h];
      KeyOrder(init) + (if multiset(init)[h] > 0 then [] else [h])
  }

  /** `sum(...)` of the counts listed under the given keys. */
  function SumOver(bins: map<int, nat>, keys: seq<int>): nat
    requires forall i :: 0 <= i < |keys| ==> keys[i] in bins
  {
    if keys == [] then 0 else SumOver(bins, keys[..|keys| - 1]) + bins[keys[|keys| - 1]]
  }

  ghost predicate KeysListed(bins: map<int, nat>, keys: seq<int>)
  {
    forall i :: 0 <= i < |keys| ==> keys[i] in bins
  }

  /** `abilities_made == len(ability_stats) == sum(ability_bins.values())`,
      with `ability_bins` counting each health of `ability_stats`. */
  ghost predicate Consistent(log: AbilityLog)
  {
    && log.made == |log.stats|
    && BinsMatch(log.bins, log.stats)
    && KeysListed(log.bins, KeyOrder(log.stats))
    && SumOver(log.bins, KeyOrder(log.stats)) == |log.stats|
  }

  /** The healths of the cards that have an ability, in order. */
  function AbilityHealths(cards: seq<Card>): (hs: seq<int>)
    ensures |hs| <= |cards|
  {
    if cards == [] then []
    else
      var c := cards[|cards| - 1];
      AbilityHealths(cards[..|cards| - 1]) + (if c.hasAbility then [c.health] else [])
  }

  /** `ability_bins` after one more occurrence of h. */
  function Bump(bins: map<int, nat>, h: int): map<int, nat>
  {
    if h in bins then bins[h := bins[h] + 1] else bins[h := 1]
  }

  /** Lines 260-265: count one more card with an ability. */
  function Record(log: AbilityLog, h: int): (r: AbilityLog)
    ensures r.stats == log.stats + [h] && r.made == log.made + 1
    ensures Consistent(log) ==> Consistent(r)
  {
    RecordKeeps(log, h);
    AbilityLog(log.made + 1, log.stats + [h], Bump(log.bins, h))
  }

  lemma RecordKeeps(log: AbilityLog, h: int)
    ensures Consistent(log) ==> Consistent(AbilityLog(log.made + 1, log.stats + [h], Bump(log.bins, h)))
  {
    if Consistent(log) {
      RecordBins(log.bins, log.stats, h);
      RecordKeepsSum(log, h);
    }
  }

  lemma RecordBins(bins0: map<int, nat>, stats: seq<int>, h: int)
    requires BinsMatch(bins0, stats)
    ensures BinsMatch(Bump(bins0, h), stats + [h])
  {
    var bins := Bump(bins0, h);
    var m := multiset(stats + [h]);
    assert m == multiset(stats) + multiset{h};
    forall g ensures g in bins <==> m[g] > 0 {
      if g != h {
        assert m[g] == multiset(stats)[g];
      }
    }
  }

  lemma RecordKeepsSum(log: AbilityLog, h: int)
    requires Consistent(log)
    ensures var bins := Bump(log.bins, h);
      var keys := KeyOrder(log.stats + [h]);
      && (forall i :: 0 <= i < |keys| ==> keys[i] in bins)
      && SumOver(bins, keys) == |log.stats| + 1
  {
    var stats := log.stats + [h];
    assert stats[..|stats| - 1] == log.stats;
    if h in log.bins {
      RepeatKeepsKeys(log, h);
    } else {
      NewKeyAppends(log, h);
    }
  }

  /** A health already binned adds no key and one to its own count. */
  lemma RepeatKeepsKeys(log: AbilityLog, h: int)
    requires Consistent(log) && h in log.bins
    ensures KeyOrder(log.stats + [h]) == KeyOrder(log.stats)
    ensures var keys := KeyOrder(log.stats);
      && (forall i :: 0 <= i < |keys| ==> keys[i] in log.bins[h := log.bins[h] + 1])
      && SumOver(log.bins[h := log.bins[h] + 1], keys) == |log.stats| + 1
  {
    var stats := log.stats + [h];
    assert stats[..|stats| - 1] == log.stats;
    SumOverBump(log.bins, KeyOrder(log.stats), h);
  }

  /** A health not yet binned becomes the last key, with count one. */
  lemma NewKeyAppends(log: AbilityLog, h: int)
    requires Consistent(log) && h !in log.bins
    ensures KeyOrder(log.stats + [h]) == KeyOrder(log.stats) + [h]
    ensures var keys := KeyOrder(log.stats) + [h];
      && (forall i :: 0 <= i < |keys| ==> keys[i] in log.bins[h := 1])
      && SumOver(log.bins[h := 1], keys) == |log.stats| + 1
  {
    var stats := log.stats + [h];
    assert stats[..|stats| - 1] == log.stats;
    var keys := KeyOrder(log.stats);
    assert (keys + [h])[..|keys|] == keys;
    forall i | 0 <= i < |keys| ensures keys[i] != h {
      assert multiset(keys)[keys[i]] > 0;
    }
    SumOverAgree(log.bins, log.bins[h := 1], keys);
  }

  lemma {:induction false} SumOverAgree(m1: map<int, nat>, m2: map<int, nat>, keys: seq<int>)
    requires forall i :: 0 <= i < |keys| ==> keys[i] in m1 && keys[i] in m2 && m1[keys[i]] == m2[keys[i]]
    ensures SumOver(m1, keys) == SumOver(m2, keys)
  {
    if keys != [] {
      SumOverAgree(m1, m2, keys[..|keys| - 1]);
    }
  }

  lemma {:induction false} SumOverBump(m: map<int, nat>, keys: seq<int>, h: int)
    requires forall i :: 0 <= i < |keys| ==> keys[i] in m
    requires h in m && multiset(keys)[h] == 1
    ensures forall i :: 0 <= i < |keys| ==> keys[i] in m[h := m[h] + 1]
    ensures SumOver(m[h := m[h] + 1], keys) == SumOver(m, keys) + 1
  {
    var init := keys[..|keys| - 1];
    var last := keys[|keys| - 1];
    assert keys == init + [last];
    if last == h {
      forall i | 0 <= i < |init| ensures init[i] != h {
        assert multiset(init)[init[i]] > 0;
      }
      SumOverAgree(m, m[h := m[h] + 1], init);
    } else {
      SumOverBump(m, init, h);
    }
  }

  lemma PoolStep(rng: Random, s: GenState, samples: seq<real>, i: nat, sha: HashInput -> nat)
    requires rng.Laws() && i < |samples|
    ensures var prev := Pool(rng, s, samples[..i], sha);
      var h := HealthOf(samples[i]);
      Pool(rng, s, samples[..i + 1], sha)
        == if h < HealthFloor then prev
           else
             var next := NextCard(rng, prev.1, h, sha);
             (prev.0 + [next.0], next.1)
  {
    assert samples[..i + 1][..i] == samples[..i];
  }

  /** Recording each health of hs in turn. */
  function Logged(log: AbilityLog, hs: seq<int>): (r: AbilityLog)
  {
    if hs == [] then log else Record(Logged(log, hs[..|hs| - 1]), hs[|hs| - 1])
  }

  /** Recording the healths hs appends them to the log, counts them, and keeps
      the counters consistent. */
  lemma {:induction false} LoggedFacts(log: AbilityLog, hs: seq<int>)
    ensures Logged(log, hs).stats == log.stats + hs
    ensures Logged(log, hs).made == log.made + |hs|
    ensures Consistent(log) ==> Consistent(Logged(log, hs))
  {
    if hs != [] {
      LoggedFacts(log, hs[..|hs| - 1]);
      assert log.stats + hs == log.stats + hs[..|hs| - 1] + [hs[|hs| - 1]];
    }
  }

  lemma AbilityHealthsStep(cards: seq<Card>, c: Card, log: AbilityLog)
    ensures AbilityHealths(cards + [c]) == AbilityHealths(cards) + (if c.hasAbility then [c.health] else [])
    ensures Logged(log, AbilityHealths(cards + [c]))
         == if c.hasAbility then Record(Logged(log, AbilityHealths(cards)), c.health)
            else Logged(log, AbilityHealths(cards))
  {
    assert (cards + [c])[..|cards|] == cards;
    var hs := AbilityHealths(cards);
    if c.hasAbility {
      var hs' := hs + [c.health];
      assert hs' != [] && hs'[..|hs'| - 1] == hs && hs'[|hs'| - 1] == c.health;
    } else {
      assert hs + [] == hs;
    }
  }

  /** Lines 255-257: draw the attack for health h and build the card. */
  method MakeCard(h: int, rng: Random, sha: HashInput -> nat) returns (card: Card)
    requires rng.Laws() && h >= HealthFloor && h % 10 == 0
    modifies rng
    ensures (card, rng.state) == NextCard(rng, old(rng.state), h, sha)
  {
    ghost var s0 := rng.state;
    var u := rng.Uniform(0.3 * h as real, h as real);
    NextCardOf(rng, s0, h, sha, u, rng.state);
    var att := DeriveAttack(h, u);
    card := NewCard(h, att, rng, sha);
  }

  /** NextCard in terms of the draw it makes. */
  lemma NextCardOf(rng: Random, s: GenState, h: int, sha: HashInput -> nat, u: real, s': GenState)
    requires rng.Laws() && h >= HealthFloor && h % 10 == 0
    requires (u, s') == rng.uniform(s, 0.3 * h as real, h as real)
    ensures 0.3 * h as real <= u <= h as real
    ensures NextCard(rng, s, h, sha) == (CardOf(rng, h, DeriveAttack(h, u), s', sha), s')
  {
  }

  /** Lines 259-265: if the card has an ability, count it, append its health
      to `ability_stats` and bump its health's bin. */
  method NoteAbility(card: Card, log: AbilityLog) returns (log': AbilityLog)
    ensures log' == if card.hasAbility then Record(log, card.health) else log
  {
    log' := log;
    if card.hasAbility {
      var h := card.health;
      var bins := if h in log.bins then log.bins[h := log.bins[h] + 1] else log.bins[h := 1];
      log' := AbilityLog(log.made + 1, log.stats + [h], bins);
    }
  }

  /** Lines 249-268: build one pack's cards from its rounded samples,
      counting every card made and recording the health of every card that
      has an ability. */
  method DrawPool(samples: seq<real>, rng: Random, sha: HashInput -> nat, made: nat, log: AbilityLog)
    returns (valid: seq<Card>, made': nat, log': AbilityLog)
    requires rng.Laws()
    modifies rng
    ensures (valid, rng.state) == Pool(rng, old(rng.state), samples, sha)
    ensures made' == made + Survivors(samples)
    ensures log' == Logged(log, AbilityHealths(valid))
    ensures log'.stats == log.stats + AbilityHealths(valid)
    ensures log'.made == log.made + |AbilityHealths(valid)|
    ensures Consistent(log) ==> Consistent(log')
  {
    ghost var s0 := rng.state;
    valid, made', log' := [], made, log;
    var i := 0;
    while i < |samples|
      invariant 0 <= i <= |samples|
      invariant (valid, rng.state) == Pool(rng, s0, samples[..i], sha)
      invariant made' == made + |valid|
      invariant log' == Logged(log, AbilityHealths(valid))
    {
      PoolStep(rng, s0, samples, i, sha);
      var h := HealthOf(samples[i]);
      if h >= HealthFloor {
        made' := made' + 1;
        var card := MakeCard(h, rng, sha);
        log' := NoteAbility(card, log');
        AbilityHealthsStep(valid, card, log);
        valid := valid + [card];
      }
      i := i + 1;
    }
    assert samples[..i] == samples;
    LoggedFacts(log, AbilityHealths(valid));
  }

  /** Lines 249-272: the pack's cards, sorted by power rating. */
  method DrawSortedPool(samples: seq<real>, rng: Random, sha: HashInput -> nat, made: nat, log: AbilityLog)
    returns (valid: seq<Card>, made': nat, log': AbilityLog)
    requires rng.Laws()
    modifies rng
    ensures var drawn := Pool(rng, old(rng.state), samples, sha);
      && valid == SortBy(drawn.0, Power) && rng.state == drawn.1
      && log' == Logged(log, AbilityHealths(drawn.0))
    ensures |valid| == Survivors(samples) && SortedBy(valid, Power)
    ensures forall i :: 0 <= i < |valid| ==> WellFormed(valid[i])
    ensures made' == made + Survivors(samples)
    ensures log'.made <= log.made + Survivors(samples)
    ensures Consistent(log) ==> Consistent(log')
  {
    var cards;
    cards, made', log' := DrawPool(samples, rng, sha, made, log);
    valid := SortBy(cards, Power);
    SortedPoolWellFormed(cards, valid);
  }

  // ----- the tally -----

  /** `count` has an entry for every tier. */
  predicate FullCounter(count: map<Tier, nat>)
  {
    forall t: Tier :: t in count
  }

  /** The total of the five counters. */
  function Total(count: map<Tier, nat>): nat
    requires FullCounter(count)
  {
    count[Common] + count[Uncommon] + count[Rare] + count[UltraRare] + count[Legendary]
  }

  /** How many of the cards have tier t. */
  function CountOf(cards: seq<Card>, t: Tier): nat
  {
    if cards == [] then 0
    else CountOf(cards[..|cards| - 1], t) + (if cards[|cards| - 1].rarity == t then 1 else 0)
  }

  lemma {:induction false} CountOfConcat(a: seq<Card>, b: seq<Card>, t: Tier)
    ensures CountOf(a + b, t) == CountOf(a, t) + CountOf(b, t)
  {
    if b != [] {
      assert (a + b)[..|a + b| - 1] == a + b[..|b| - 1];
      CountOfConcat(a, b[..|b| - 1], t);
    } else {
      assert a + b == a;
    }
  }

  /** Every card has exactly one tier, so the five counts add up to the
      number of cards. */
  lemma {:induction false} CountOfTiers(cards: seq<Card>)
    ensures CountOf(cards, Common) + CountOf(cards, Uncommon) + CountOf(cards, Rare)
          + CountOf(cards, UltraRare) + CountOf(cards, Legendary) == |cards|
  {
    if cards != [] {
      CountOfTiers(cards[..|cards| - 1]);
    }
  }

  /** Lines 305-308: one more count for the tier of each chosen card. */
  method TallyChoices(choices: seq<Card>, count: map<Tier, nat>) returns (count': map<Tier, nat>)
    requires FullCounter(count)
    ensures FullCounter(count')
    ensures forall t :: count'[t] == count[t] + CountOf(choices, t)
  {
    count' := count;
    var j := 0;
    while j < |choices|
      invariant 0 <= j <= |choices|
      invariant FullCounter(count')
      invariant forall t :: count'[t] == count[t] + CountOf(choices[..j], t)
    {
      assert choices[..j + 1][..j] == choices[..j];
      count' := count'[choices[j].rarity := count'[choices[j].rarity] + 1];
      j := j + 1;
    }
    assert choices[..j] == choices;
  }

  /** The pack printed is the worst card, the choices and the best card; its
      tier counts are those of its parts. */
  lemma CountOfPack(worst: Card, choices: seq<Card>, best: Card, t: Tier)
    ensures CountOf([worst] + choices + [best], t)
         == (if worst.rarity == t then 1 else 0) + (if best.rarity == t then 1 else 0) + CountOf(choices, t)
  {
    CountOfConcat([worst] + choices, [best], t);
    CountOfConcat([worst], choices, t);
    assert [worst][..0] == [] && [best][..0] == [];
  }

  /** No card of a pack has more power than the pool's last card. */
  lemma PackBelowBest(valid: seq<Card>, picks: seq<nat>)
    requires |valid| >= 2 && Distinct(picks, |valid| - 2)
    requires SortedBy(valid, Power)
    ensures var pack := PackOf(valid, picks);
      forall i :: 0 <= i < |pack| ==> pack[i].powerRating <= valid[|valid| - 1].powerRating
  {
    var pack := PackOf(valid, picks);
    PackWithinExtremes(valid, picks, Power);
    forall i | 0 <= i < |pack| ensures pack[i].powerRating <= valid[|valid| - 1].powerRating {
      assert Power(pack[i]) <= Power(valid[|valid| - 1]);
    }
  }

  /** The running totals the session keeps across packs: `count`,
      `best_power`, `best_card_found`, `cards_made` and the ability
      statistics. */
  datatype Tally = Tally(count: map<Tier, nat>, bestPower: real, bestCard: Option<Card>,
                         cardsMade: nat, abilities: AbilityLog)

  /** Lines 291, 301 and 305-308: count the tier of the worst card, of the
      best card and of each of the thirteen choices. */
  method CountPack(valid: seq<Card>, picks: seq<nat>, count: map<Tier, nat>) returns (count': map<Tier, nat>)
    requires FullCounter(count)
    requires |valid| >= 2 && Distinct(picks, |valid| - 2)
    ensures FullCounter(count')
    ensures forall tier :: count'[tier] == count[tier] + CountOf(PackOf(valid, picks), tier)
    ensures Total(count') == Total(count) + |picks| + 2
  {
    var worst, best := valid[0], valid[|valid| - 1];
    count' := count[worst.rarity := count[worst.rarity] + 1];
    count' := count'[best.rarity := count'[best.rarity] + 1];
    var choices := Picked(Interior(valid), picks);
    count' := TallyChoices(choices, count');
    ghost var pack := PackOf(valid, picks);
    assert pack == [worst] + choices + [best];
    forall tier ensures count'[tier] == count[tier] + CountOf(pack, tier) {
      CountOfPack(worst, choices, best, tier);
    }
    CountOfTiers(pack);
  }

  /** What tallying a printed pack does to the counters and the best card:
      each printed card's tier is counted once, and the best power rises to
      the pack's last card when that card is strictly better. */
  ghost predicate TallyStep(t: Tally, pack: seq<Card>, t': Tally)
  {
    && |pack| >= 2
    && FullCounter(t.count) && FullCounter(t'.count)
    && (forall tier :: t'.count[tier] == t.count[tier] + CountOf(pack, tier))
    && Total(t'.count) == Total(t.count) + |pack|
    && t'.bestPower >= t.bestPower
    && (forall i :: 0 <= i < |pack| ==> pack[i].powerRating <= t'.bestPower)
    && t'.bestCard == (if t'.bestPower != t.bestPower then Some(pack[|pack| - 1]) else t.bestCard)
    && (t'.bestPower != t.bestPower ==> t'.bestPower == pack[|pack| - 1].powerRating > t.bestPower)
    && (pack[|pack| - 1].powerRating > t.bestPower ==> t'.bestPower != t.bestPower)
  }

  /** Lines 291-308 once the sample positions are drawn: tally the worst card,
      the best card and the thirteen picks; take the best card as the session's
      best if it is strictly better. */
  method TallyPack(valid: seq<Card>, picks: seq<nat>, t: Tally) returns (t': Tally)
    requires FullCounter(t.count)
    requires |valid| >= 2 && Distinct(picks, |valid| - 2)
    requires SortedBy(valid, Power)
    ensures TallyStep(t, PackOf(valid, picks), t')
    ensures t'.cardsMade == t.cardsMade && t'.abilities == t.abilities
  {
    var count := CountPack(valid, picks, t.count);
    var best := valid[|valid| - 1];
    var bestPower, bestCard := t.bestPower, t.bestCard;
    if best.powerRating > bestPower {
      bestPower, bestCard := best.powerRating, Some(best);
    }
    PackBelowBest(valid, picks);
    t' := t.(count := count, bestPower := bestPower, bestCard := bestCard);
  }

  // ----- the session -----

  /** What the session leaves behind: the totals and the fifteen cards
      printed for each pack. */
  datatype Summary = Summary(tally: Tally, packs: seq<seq<Card>>)

  /** How the session ends when some pack has fewer than fifteen cards: the
      first such pack stops it, with an `IndexError` on `valid_cards[0]` when
      it has none and a `ValueError` from `random.sample` otherwise. */
  function SessionFailure(batches: seq<seq<real>>): Option<Failure>
  {
    if batches == [] then None
    else
      var n := Survivors(batches[0]);
      if n == 0 then Some(EmptyPool)
      else if n < 15 then Some(SampleLargerThanPopulation)
      else SessionFailure(batches[1..])
  }

  /** The session fails exactly when some pack has fewer than fifteen
      surviving healths. */
  lemma {:induction false} SessionFailureNone(batches: seq<seq<real>>)
    ensures SessionFailure(batches) == None
        <==> forall b :: 0 <= b < |batches| ==> Survivors(batches[b]) >= 15
  {
    if batches != [] {
      SessionFailureNone(batches[1..]);
      assert forall b :: 1 <= b < |batches| ==> batches[1..][b - 1] == batches[b];
    }
  }

  /** The failure is that of the first short pack. */
  lemma {:induction false} SessionFailureAt(batches: seq<seq<real>>, p: nat)
    requires p < |batches| && Survivors(batches[p]) < 15
    requires forall b :: 0 <= b < p ==> Survivors(batches[b]) >= 15
    ensures SessionFailure(batches)
         == Some(if Survivors(batches[p]) == 0 then EmptyPool else SampleLargerThanPopulation)
  {
    if p > 0 {
      assert batches[1..][p - 1] == batches[p];
      SessionFailureAt(batches[1..], p - 1);
    }
  }

  /** `cards_made` after the given packs. */
  function SurvivorsAll(batches: seq<seq<real>>): nat
  {
    if batches == [] then 0
    else SurvivorsAll(batches[..|batches| - 1]) + Survivors(batches[|batches| - 1])
  }

  /** How many of the printed cards have tier t. */
  function CountAll(packs: seq<seq<Card>>, t: Tier): nat
  {
    if packs == [] then 0
    else CountAll(packs[..|packs| - 1], t) + CountOf(packs[|packs| - 1], t)
  }

  /** A sorted pool's cards are the pool's cards, so they are well formed. */
  lemma SortedPoolWellFormed(pool: seq<Card>, sorted: seq<Card>)
    requires forall i :: 0 <= i < |pool| ==> WellFormed(pool[i])
    requires multiset(sorted) == multiset(pool)
    ensures forall i :: 0 <= i < |sorted| ==> WellFormed(sorted[i])
  {
    forall i | 0 <= i < |sorted| ensures WellFormed(sorted[i]) {
      assert sorted[i] in multiset(pool);
      var j :| 0 <= j < |pool| && pool[j] == sorted[i];
    }
  }

  /** What one pack does to the running totals: it prints fifteen cards and
      tallies them, counts every surviving health as a card made, and
      records at most that many abilities, keeping the ability statistics
      consistent. */
  ghost predicate PackStep(t: Tally, batch: seq<real>, pack: seq<Card>, t': Tally)
  {
    && Survivors(batch) >= 15 && |pack| == 15
    && TallyStep(t, pack, t')
    && t'.cardsMade == t.cardsMade + Survivors(batch)
    && t'.abilities.made <= t.abilities.made + Survivors(batch)
    && (Consistent(t.abilities) ==> Consistent(t'.abilities))
    && (t.bestPower <= 0.0 ==> t'.bestPower != t.bestPower)
  }

  /** Lines 249-272 and 303-305 for one pack: draw and sort the pool, then
      draw thirteen interior positions. Fails as the script does when the
      pool has fewer than fifteen cards. */
  method DrawPack(batch: seq<real>, rng: Random, sha: HashInput -> nat, made: nat, log: AbilityLog)
    returns (valid: seq<Card>, picks: seq<nat>, made': nat, log': AbilityLog)
    requires rng.Laws()
    modifies rng
    ensures var drawn := Pool(rng, old(rng.state), batch, sha);
      && valid == SortBy(drawn.0, Power)
      && log' == Logged(log, AbilityHealths(drawn.0))
      && if |valid| < 15 then picks == [] && rng.state == drawn.1
         else (picks, rng.state) == rng.sample(drawn.1, |valid| - 2, 13)
    ensures |valid| == Survivors(batch) && SortedBy(valid, Power)
    ensures |valid| > 0 ==> WellFormed(valid[|valid| - 1])
    ensures made' == made + Survivors(batch)
    ensures log'.made <= log.made + Survivors(batch)
    ensures Consistent(log) ==> Consistent(log')
  {
    valid, made', log' := DrawSortedPool(batch, rng, sha, made, log);
    if |valid| < 15 {
      picks := [];
    } else {
      picks := rng.Sample(|valid| - 2, 13);
    }
  }

  /** Lines 245-310 for one pack: draw the pool, sort it, and print and tally
      the worst card, thirteen sampled interior cards and the best card. The
      pack fails when the pool has fewer than fifteen cards. */
  method PlayPack(batch: seq<real>, rng: Random, sha: HashInput -> nat, t: Tally)
    returns (r: Result<(seq<Card>, Tally)>)
    requires rng.Laws() && FullCounter(t.count)
    modifies rng
    ensures r.Err? <==> Survivors(batch) < 15
    ensures r.Err? ==> r.error == if Survivors(batch) == 0 then EmptyPool else SampleLargerThanPopulation
    ensures r.Ok? ==> PackStep(t, batch, r.value.0, r.value.1)
    ensures r.Ok? ==> var pool := Pool(rng, old(rng.state), batch, sha);
                      var d := PackDraw(rng, pool, Power);
                      && r.value.0 == PackOf(d.0, d.1) && rng.state == d.2
                      && r.value.1.abilities == Logged(t.abilities, AbilityHealths(pool.0))
  {
    var valid, picks, made', log' := DrawPack(batch, rng, sha, t.cardsMade, t.abilities);
    if |valid| == 0 {
      return Err(EmptyPool);
    } else if |valid| < 15 {
      return Err(SampleLargerThanPopulation);
    }
    var pack := PackOf(valid, picks);
    assert pack[15 - 1] == valid[|valid| - 1];
    var t' := TallyPack(valid, picks, t.(cardsMade := made', abilities := log'));
    r := Ok((pack, t'));
  }

  /** What holds after the first p packs of the session. */
  ghost predicate SessionInv(batches: seq<seq<real>>, p: nat, tally: Tally, packs: seq<seq<Card>>, bestAt: nat)
  {
    && p <= |batches| && |packs| == p
    && (forall b :: 0 <= b < p ==> Survivors(batches[b]) >= 15)
    && (forall b :: 0 <= b < p ==> |packs[b]| == 15)
    && FullCounter(tally.count) && (forall t :: tally.count[t] == CountAll(packs, t))
    && Total(tally.count) == 15 * p
    && tally.cardsMade == SurvivorsAll(batches[..p])
    && Consistent(tally.abilities) && tally.abilities.made <= tally.cardsMade
    && tally.bestPower >= 0.0
    && (forall b, i :: 0 <= b < p && 0 <= i < 15 ==> packs[b][i].powerRating <= tally.bestPower)
    && (tally.bestCard.Some? <==> p > 0)
    && (tally.bestCard.None? ==> tally.bestPower == 0.0)
    && (tally.bestCard.Some? ==>
          && tally.bestCard.value.powerRating == tally.bestPower
          && bestAt < p && packs[bestAt][15 - 1] == tally.bestCard.value
          && (forall b :: 0 <= b < bestAt ==> packs[b][15 - 1].powerRating < tally.bestPower))
  }

  /** One more pack keeps the session's invariant. */
  lemma SessionStep(batches: seq<seq<real>>, p: nat, tally: Tally, packs: seq<seq<Card>>, bestAt: nat,
                    pack: seq<Card>, next: Tally)
    requires SessionInv(batches, p, tally, packs, bestAt) && p < |batches|
    requires PackStep(tally, batches[p], pack, next)
    ensures SessionInv(batches, p + 1, next, packs + [pack], if next.bestPower != tally.bestPower then p else bestAt)
  {
    assert batches[..p + 1][..p] == batches[..p];
    var packs' := packs + [pack];
    assert packs'[..p] == packs;
    forall t ensures next.count[t] == CountAll(packs', t) {
    }
    forall b, i | 0 <= b < p + 1 && 0 <= i < 15 ensures packs'[b][i].powerRating <= next.bestPower {
      if b < p {
        assert packs'[b] == packs[b];
      }
    }
  }

  /** The counters as lines 226-236 initialise them: every tier at zero, no
      best card at power zero, no cards and no abilities. */
  function InitialTally(): Tally
  {
    Tally(map[Legendary := 0, Common := 0, UltraRare := 0, Uncommon := 0, Rare := 0],
          0.0, None, 0, AbilityLog(0, [], map[]))
  }

  /** The initial counters satisfy the session invariant before any pack. */
  lemma SessionStart(batches: seq<seq<real>>)
    ensures SessionInv(batches, 0, InitialTally(), [], 0)
  {
    var count := InitialTally().count;
    forall t: Tier ensures t in count {
      match t
      case Common =>
      case Uncommon =>
      case Rare =>
      case UltraRare =>
      case Legendary =>
    }
    assert KeyOrder([]) == [];
  }

  /** What a completed session guarantees about its summary: one fifteen-card
      pack per batch, every tier tallied exactly as often as it was printed,
      every surviving sample counted as a card, consistent ability
      statistics, and a best card that is the strongest card printed and the
      last card of the first pack whose last card reaches that power (the
      comparison is strict, so a later tie does not replace it); with no
      pack the best power stays at zero. */
  ghost predicate SessionOutcome(batches: seq<seq<real>>, s: Summary)
  {
    && |s.packs| == |batches|
    && (forall b :: 0 <= b < |batches| ==> |s.packs[b]| == 15)
    && FullCounter(s.tally.count)
    && (forall t :: s.tally.count[t] == CountAll(s.packs, t))
    && Total(s.tally.count) == 15 * |batches|
    && s.tally.cardsMade == SurvivorsAll(batches)
    && Consistent(s.tally.abilities)
    && s.tally.abilities.made <= s.tally.cardsMade
    && (forall b, i :: 0 <= b < |batches| && 0 <= i < 15 ==> s.packs[b][i].powerRating <= s.tally.bestPower)
    && (s.tally.bestCard.Some? <==> |batches| > 0)
    && (s.tally.bestCard.Some? ==>
          && s.tally.bestCard.value.powerRating == s.tally.bestPower
          && exists b :: 0 <= b < |batches| && s.packs[b][15 - 1] == s.tally.bestCard.value
                      && (forall b' :: 0 <= b' < b ==> s.packs[b'][15 - 1].powerRating < s.tally.bestPower))
    && (s.tally.bestCard.None? ==> s.tally.bestPower == 0.0)
  }

  /** The invariant after the last pack is the session's outcome. */
  lemma SessionEnd(batches: seq<seq<real>>, tally: Tally, packs: seq<seq<Card>>, bestAt: nat)
    requires SessionInv(batches, |batches|, tally, packs, bestAt)
    ensures SessionOutcome(batches, Summary(tally, packs))
  {
    assert batches[..|batches|] == batches;
  }

  /** One pack's draws from state s: the pack printed from the batch's
      sorted pool and sample, the healths of the pool's cards that carry an
      ability, and the state the sample leaves. */
  function BatchDraw(rng: Random, s: GenState, batch: seq<real>, sha: HashInput -> nat)
    : (r: (seq<Card>, seq<int>, GenState))
    requires rng.Laws() && Survivors(batch) >= 15
    ensures |r.0| == 15 && |r.1| <= Survivors(batch)
  {
    var pool := Pool(rng, s, batch, sha);
    var d := PackDraw(rng, pool, Power);
    (PackOf(d.0, d.1), AbilityHealths(pool.0), d.2)
  }

  /** The draws of a whole session from state s: the packs it prints when
      every batch has at least fifteen survivors, the healths of its ability
      cards in the order they were made, and the generator state it leaves.
      Each pack is drawn from the state the previous pack left. */
  function SessionDraws(rng: Random, s: GenState, batches: seq<seq<real>>, sha: HashInput -> nat)
    : (r: (seq<seq<Card>>, seq<int>, GenState))
    requires rng.Laws()
    requires forall b :: 0 <= b < |batches| ==> Survivors(batches[b]) >= 15
    ensures |r.0| == |batches|
    ensures forall b :: 0 <= b < |batches| ==> |r.0[b]| == 15
    ensures |r.1| <= SurvivorsAll(batches)
  {
    if batches == [] then ([], [], s)
    else
      var init := batches[..|batches| - 1];
      var prev := SessionDraws(rng, s, init, sha);
      var q := BatchDraw(rng, prev.2, batches[|batches| - 1], sha);
      (prev.0 + [q.0], prev.1 + q.1, q.2)
  }

  lemma SessionDrawsStep(rng: Random, s0: GenState, batches: seq<seq<real>>, p: nat, sha: HashInput -> nat)
    requires rng.Laws() && p < |batches|
    requires forall b :: 0 <= b <= p ==> Survivors(batches[b]) >= 15
    ensures var prev := SessionDraws(rng, s0, batches[..p], sha);
      var q := BatchDraw(rng, prev.2, batches[p], sha);
      SessionDraws(rng, s0, batches[..p + 1], sha) == (prev.0 + [q.0], prev.1 + q.1, q.2)
  {
    assert batches[..p + 1][..p] == batches[..p];
  }

  /** Recording a then b is recording a + b. */
  lemma {:induction false} LoggedConcat(log: AbilityLog, a: seq<int>, b: seq<int>)
    ensures Logged(Logged(log, a), b) == Logged(log, a + b)
  {
    if b == [] {
      assert a + b == a;
    } else {
      LoggedConcat(log, a, b[..|b| - 1]);
      assert (a + b)[..|a + b| - 1] == a + b[..|b| - 1];
    }
  }

  /** After p packs: the packs printed, the generator state and the ability
      log are those the draws of the first p batches determine. */
  ghost predicate SessionSoFar(rng: Random, s0: GenState, batches: seq<seq<real>>, p: nat, sha: HashInput -> nat,
                               packs: seq<seq<Card>>, s: GenState, log: AbilityLog)
  {
    && rng.Laws() && p <= |batches|
    && (forall b :: 0 <= b < p ==> Survivors(batches[b]) >= 15)
    && var d := SessionDraws(rng, s0, batches[..p], sha);
       packs == d.0 && s == d.2 && log == Logged(AbilityLog(0, [], map[]), d.1)
  }

  /** One more pack, drawn from the state the previous ones left, extends
      the session's draws. */
  lemma SessionSoFarStep(rng: Random, s0: GenState, batches: seq<seq<real>>, p: nat, sha: HashInput -> nat,
                         packs: seq<seq<Card>>, s: GenState, log: AbilityLog,
                         pack: seq<Card>, s': GenState, log': AbilityLog)
    requires SessionSoFar(rng, s0, batches, p, sha, packs, s, log) && p < |batches|
    requires Survivors(batches[p]) >= 15
    requires var pool := Pool(rng, s, batches[p], sha);
      var d := PackDraw(rng, pool, Power);
      pack == PackOf(d.0, d.1) && s' == d.2 && log' == Logged(log, AbilityHealths(pool.0))
    ensures SessionSoFar(rng, s0, batches, p + 1, sha, packs + [pack], s', log')
  {
    var prev := SessionDraws(rng, s0, batches[..p], sha);
    SessionDrawsStep(rng, s0, batches, p, sha);
    LoggedConcat(AbilityLog(0, [], map[]), prev.1, AbilityHealths(Pool(rng, s, batches[p], sha).0));
  }

  /** After the last pack, the draws of all batches determine the packs,
      the final state and the ability log. */
  lemma SessionSoFarEnd(rng: Random, s0: GenState, batches: seq<seq<real>>, sha: HashInput -> nat,
                        packs: seq<seq<Card>>, s: GenState, log: AbilityLog)
    requires SessionSoFar(rng, s0, batches, |batches|, sha, packs, s, log)
    ensures && (forall b :: 0 <= b < |batches| ==> Survivors(batches[b]) >= 15)
            && (var d := SessionDraws(rng, s0, batches, sha);
                && packs == d.0 && s == d.2
                && log == Logged(AbilityLog(0, [], map[]), d.1)
                && log.stats == d.1 && log.made == |d.1|)
  {
    assert batches[..|batches|] == batches;
    LoggedFacts(AbilityLog(0, [], map[]), SessionDraws(rng, s0, batches, sha).1);
  }

  /** Lines 224-310: run one pack per sample batch (`PACK_COUNT` batches of
      28 samples in the script) through the shared generator. */
  method RunSession(batches: seq<seq<real>>, rng: Random, sha: HashInput -> nat) returns (r: Result<Summary>)
    requires rng.Laws()
    modifies rng
    ensures r.Err? <==> SessionFailure(batches).Some?
    ensures r.Err? ==> r.error == SessionFailure(batches).value
    ensures r.Ok? ==> SessionOutcome(batches, r.value)
    ensures r.Ok? ==> && (forall b :: 0 <= b < |batches| ==> Survivors(batches[b]) >= 15)
                      && (var d := SessionDraws(rng, old(rng.state), batches, sha);
                          && r.value.packs == d.0 && rng.state == d.2
                          && r.value.tally.abilities == Logged(AbilityLog(0, [], map[]), d.1)
                          && r.value.tally.abilities.stats == d.1
                          && r.value.tally.abilities.made == |d.1|)
  {
    ghost var s0 := rng.state;
    var tally := InitialTally();
    var packs: seq<seq<Card>> := [];
    ghost var bestAt: nat := 0;
    SessionStart(batches);
    var p := 0;
    while p < |batches|
      invariant SessionInv(batches, p, tally, packs, bestAt)
      invariant SessionSoFar(rng, s0, batches, p, sha, packs, rng.state, tally.abilities)
    {
      ghost var s := rng.state;
      var played := PlayPack(batches[p], rng, sha, tally);
      if played.Err? {
        SessionFailureAt(batches, p);
        return Err(played.error);
      }
      var pack, next := played.value.0, played.value.1;
      SessionStep(batches, p, tally, packs, bestAt, pack, next);
      SessionSoFarStep(rng, s0, batches, p, sha, packs, s, tally.abilities, pack, rng.state, next.abilities);
      if next.bestPower != tally.bestPower {
        bestAt := p;
      }
      tally, packs := next, packs + [pack];
      p := p + 1;
    }
    SessionEnd(batches, tally, packs, bestAt);
    SessionFailureNone(batches);
    SessionSoFarEnd(rng, s0, batches, sha, packs, rng.state, tally.abilities);
    r := Ok(Summary(tally, packs));
  }
}
