/** The tuple-based pack of rand.py's main block: every sampled health draws
    a ratio, those of at least 20 become a `(power, health, attack, seed)`
    tuple, the tuples are sorted by power, and the weakest tuple, thirteen
    sampled interior tuples and the strongest tuple are formatted as lines. */
module TuplePack {
  import opened Outcome
  import opened Rarity
  import opened Identity
  import opened PyRandom
  import opened Stats
  import opened Cards
  import opened Sorting

  /** `ratios`: one is drawn per sample, although only a commented-out print
      reads it. */
  const Ratios: seq<(nat, nat)> := [(15, 10), (2, 1), (2, 1), (3, 1), (3, 1)]

  /** `(stat + att * 1.2, stat, att, random.randint(1, 3))`. */
  datatype StatTuple = StatTuple(power: real, health: int, attack: int, seed: int)

  /** The sort key of `valid_stats.sort(key=lambda x: x[0])`. */
  function TuplePower(t: StatTuple): real
  {
    t.power
  }

  /** What every tuple appended to `valid_stats` satisfies. */
  predicate Formed(t: StatTuple)
  {
    && t.health >= HealthFloor && t.health % 10 == 0
    && t.attack % 10 == 0 && 0 <= t.attack <= t.health
    && t.power == PowerRating(t.health, t.attack)
    && 1 <= t.seed <= 3
  }

  /** Lines 166-171 for one rounded health h from state s: the ratio draw,
      then, for h of at least 20, the `uniform` draw for the attack and the
      `randint` draw for the seed. */
  function NextTuple(rng: Random, s: GenState, h: int): (r: (Option<StatTuple>, GenState))
    requires rng.Laws()
    requires h % 10 == 0
    ensures r.0.Some? <==> h >= HealthFloor
    ensures r.0.Some? ==> Formed(r.0.value) && r.0.value.health == h
  {
    var choice := rng.below(s, |Ratios|);
    if h < HealthFloor then (None, choice.1)
    else
      var u := rng.uniform(choice.1, h as real * 0.3, h as real);
      var att := DeriveAttack(h, u.0);
      var k := rng.randInt(u.1, 1, 3);
      (Some(StatTuple(PowerRating(h, att), h, att, k.0)), k.1)
  }

  /** The tuples the loop of lines 165-171 appends when the generator starts
      in state s, and the state it leaves. */
  function Tuples(rng: Random, s: GenState, samples: seq<real>): (r: (seq<StatTuple>, GenState))
    requires rng.Laws()
    ensures |r.0| == Survivors(samples)
    ensures forall i :: 0 <= i < |r.0| ==> Formed(r.0[i])
  {
    if samples == [] then ([], s)
    else
      var prev := Tuples(rng, s, samples[..|samples| - 1]);
      var next := NextTuple(rng, prev.1, HealthOf(samples[|samples| - 1]));
      (prev.0 + (if next.0.Some? then [next.0.value] else []), next.1)
  }

  lemma TuplesStep(rng: Random, s: GenState, samples: seq<real>, i: nat)
    requires rng.Laws() && i < |samples|
    ensures var prev := Tuples(rng, s, samples[..i]);
      var next := NextTuple(rng, prev.1, HealthOf(samples[i]));
      Tuples(rng, s, samples[..i + 1]) == (prev.0 + (if next.0.Some? then [next.0.value] else []), next.1)
  {
    assert samples[..i + 1][..i] == samples[..i];
  }

  /** The state after n ratio draws and nothing else. */
  function Choices(rng: Random, s: GenState, n: nat): GenState
  {
    if n == 0 then s else rng.below(Choices(rng, s, n - 1), |Ratios|).1
  }

  /** A ratio is drawn for every sample, discarded ones included: when every
      sample is discarded there are no tuples, yet the generator has moved
      on by one draw per sample. */
  lemma {:induction false} DiscardedStillDraw(rng: Random, s: GenState, samples: seq<real>)
    requires rng.Laws() && Survivors(samples) == 0
    ensures Tuples(rng, s, samples) == ([], Choices(rng, s, |samples|))
  {
    if samples != [] {
      var init := samples[..|samples| - 1];
      assert Survivors(init) == 0;
      DiscardedStillDraw(rng, s, init);
    }
  }

  /** Lines 166-171 for one rounded health h. */
  method DrawTuple(h: int, rng: Random) returns (t: Option<StatTuple>)
    requires rng.Laws() && h % 10 == 0
    modifies rng
    ensures (t, rng.state) == NextTuple(rng, old(rng.state), h)
  {
    var ratio := rng.Below(|Ratios|);
    if h < HealthFloor {
      t := None;
    } else {
      var u := rng.Uniform(h as real * 0.3, h as real);
      var att := DeriveAttack(h, u);
      var k := rng.RandInt(1, 3);
      t := Some(StatTuple(PowerRating(h, att), h, att, k));
    }
  }

  /** Lines 164-171: build `valid_stats` from the rounded samples. */
  method DrawTuples(samples: seq<real>, rng: Random) returns (valid: seq<StatTuple>)
    requires rng.Laws()
    modifies rng
    ensures (valid, rng.state) == Tuples(rng, old(rng.state), samples)
  {
    ghost var s0 := rng.state;
    valid := [];
    var i := 0;
    while i < |samples|
      invariant 0 <= i <= |samples|
      invariant (valid, rng.state) == Tuples(rng, s0, samples[..i])
    {
      TuplesStep(rng, s0, samples, i);
      var t := DrawTuple(HealthOf(samples[i]), rng);
      if t.Some? {
        valid := valid + [t.value];
      } else {
        assert valid + [] == valid;
      }
      i := i + 1;
    }
    assert samples[..i] == samples;
  }

  // ----- formatting -----

  /** The fields of the line `format_card` prints: the id, the power in
      brackets, the rarity label, the health and the attack. */
  datatype CardLine = CardLine(id: string, power: real, rarity: Tier, health: int, attack: int)

  /** `format_card(stats)`: the rarity comes from the tuple's power and the
      id from the digest of the whole tuple, seed included. */
  function FormatCard(t: StatTuple, sha: HashInput -> nat): (line: CardLine)
    ensures line.power == t.power && line.health == t.health && line.attack == t.attack
    ensures line.rarity == Categorize(t.power)
    ensures |line.id| == IdLength && IsBase36(line.id)
    ensures Value(line.id) == sha(StatKey(t.power, t.health, t.attack, t.seed)) % IdSpace
  {
    CardLine(ShortId(sha(StatKey(t.power, t.health, t.attack, t.seed))), t.power,
             Categorize(t.power), t.health, t.attack)
  }

  /** The lines of a sequence of tuples, one per tuple, in order. */
  function Lines(ts: seq<StatTuple>, sha: HashInput -> nat): (r: seq<CardLine>)
    ensures |r| == |ts|
    ensures forall i :: 0 <= i < |ts| ==> r[i] == FormatCard(ts[i], sha)
  {
    seq(|ts|, i requires 0 <= i < |ts| => FormatCard(ts[i], sha))
  }

  lemma LinesAppend(ts: seq<StatTuple>, t: StatTuple, sha: HashInput -> nat)
    ensures Lines(ts + [t], sha) == Lines(ts, sha) + [FormatCard(t, sha)]
  {
    assert (ts + [t])[..|ts|] == ts;
  }

  /** Lines 190-199: the line of the weakest tuple, of each sampled interior
      tuple in the order drawn, and of the strongest tuple. */
  method FormatPack(valid: seq<StatTuple>, picks: seq<nat>, sha: HashInput -> nat) returns (lines: seq<CardLine>)
    requires |valid| >= 2 && Distinct(picks, |valid| - 2)
    ensures lines == Lines(PackOf(valid, picks), sha)
  {
    var choices := Interior(valid);
    lines := [FormatCard(valid[0], sha)];
    var j := 0;
    while j < |picks|
      invariant 0 <= j <= |picks|
      invariant lines == Lines(PackFront(valid, picks, j), sha)
    {
      PackFrontStep(valid, picks, j, sha);
      lines := lines + [FormatCard(choices[picks[j]], sha)];
      j := j + 1;
    }
    PackFrontLast(valid, picks, sha);
    lines := lines + [FormatCard(valid[|valid| - 1], sha)];
  }

  /** The first slot of a pack followed by its first j sampled slots. */
  function PackFront(valid: seq<StatTuple>, picks: seq<nat>, j: nat): seq<StatTuple>
    requires |valid| >= 2 && Distinct(picks, |valid| - 2) && j <= |picks|
  {
    [valid[0]] + Picked(Interior(valid), picks[..j])
  }

  lemma PackFrontStep(valid: seq<StatTuple>, picks: seq<nat>, j: nat, sha: HashInput -> nat)
    requires |valid| >= 2 && Distinct(picks, |valid| - 2) && j < |picks|
    ensures Lines(PackFront(valid, picks, j + 1), sha)
         == Lines(PackFront(valid, picks, j), sha) + [FormatCard(Interior(valid)[picks[j]], sha)]
  {
    assert picks[..j + 1][..j] == picks[..j];
    assert PackFront(valid, picks, j + 1) == PackFront(valid, picks, j) + [Interior(valid)[picks[j]]];
    LinesAppend(PackFront(valid, picks, j), Interior(valid)[picks[j]], sha);
  }

  lemma PackFrontLast(valid: seq<StatTuple>, picks: seq<nat>, sha: HashInput -> nat)
    requires |valid| >= 2 && Distinct(picks, |valid| - 2)
    ensures Lines(PackOf(valid, picks), sha)
         == Lines(PackFront(valid, picks, |picks|), sha) + [FormatCard(valid[|valid| - 1], sha)]
  {
    assert picks[..|picks|] == picks;
    assert PackOf(valid, picks) == PackFront(valid, picks, |picks|) + [valid[|valid| - 1]];
    LinesAppend(PackFront(valid, picks, |picks|), valid[|valid| - 1], sha);
  }

  /** Lines 161-199 from the rounded samples on: build and sort the tuples,
      then print the pack. Fails as the script does when there is no tuple
      (`valid_stats[0]`) or fewer than thirteen interior tuples
      (`random.sample`). */
  method AssemblePack(samples: seq<real>, rng: Random, sha: HashInput -> nat) returns (r: Result<seq<CardLine>>)
    requires rng.Laws()
    modifies rng
    ensures r.Err? <==> Survivors(samples) < 15
    ensures r.Err? ==> r.error == if Survivors(samples) == 0 then EmptyPool else SampleLargerThanPopulation
    ensures r.Ok? ==> var d := PackDraw(rng, Tuples(rng, old(rng.state), samples), TuplePower);
                      r.value == Lines(PackOf(d.0, d.1), sha) && rng.state == d.2
  {
    var drawn := DrawTuples(samples, rng);
    var valid := SortBy(drawn, TuplePower);
    if |valid| == 0 {
      return Err(EmptyPool);
    } else if |valid| < 15 {
      return Err(SampleLargerThanPopulation);
    }
    var picks := rng.Sample(|valid| - 2, 13);
    var lines := FormatPack(valid, picks, sha);
    r := Ok(lines);
  }

  // ----- properties of a printed pack -----

  /** A printed pack has fifteen lines; the first is the weakest tuple of
      the whole pool and the last the strongest, every line lies between
      them in power and in rarity, and every line's rarity is the tier of its
      power. */
  lemma PackLinesOrdered(rng: Random, drawn: (seq<StatTuple>, GenState), sha: HashInput -> nat)
    requires rng.Laws() && |drawn.0| >= 15
    ensures var d := PackDraw(rng, drawn, TuplePower);
      var lines := Lines(PackOf(d.0, d.1), sha);
      && |lines| == 15
      && (forall i :: 0 <= i < |drawn.0| ==> lines[0].power <= drawn.0[i].power <= lines[14].power)
      && (forall i :: 0 <= i < 15 ==> lines[0].power <= lines[i].power <= lines[14].power)
      && (forall i :: 0 <= i < 15 ==> Rank(lines[0].rarity) <= Rank(lines[i].rarity) <= Rank(lines[14].rarity))
      && (forall i :: 0 <= i < 15 ==> lines[i].rarity == Categorize(lines[i].power))
  {
    var d := PackDraw(rng, drawn, TuplePower);
    var pack := PackOf(d.0, d.1);
    var lines := Lines(pack, sha);
    PackWithinExtremes(d.0, d.1, TuplePower);
    forall i | 0 <= i < |drawn.0| ensures lines[0].power <= drawn.0[i].power <= lines[14].power {
      assert drawn.0[i] in multiset(d.0);
      SortedExtremes(d.0, TuplePower, drawn.0[i]);
    }
    forall i | 0 <= i < 15 ensures Rank(lines[0].rarity) <= Rank(lines[i].rarity) <= Rank(lines[14].rarity) {
      CategorizeMonotone(lines[0].power, lines[i].power);
      CategorizeMonotone(lines[i].power, lines[14].power);
    }
  }

  /** The two scripts agree: a tuple and a card built from the same health
      and attack have the same power rating and the same tier. */
  lemma TupleMatchesCard(rng: Random, t: StatTuple, ambient: GenState, sha: HashInput -> nat)
    requires rng.Laws() && Formed(t)
    ensures var c := CardOf(rng, t.health, t.attack, ambient, sha);
      c.powerRating == t.power && c.rarity == FormatCard(t, sha).rarity
  {
  }
}
