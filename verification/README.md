# Dominion card generation, modelled in Dafny

This project models the card-generation core of the Dominion planning
scripts: `Planning/card_gen.py` and the tuple-based variant
`Planning/rand.py`.

- **Rarity.** Both scripts classify a power rating into one of five tiers:
  Common, Uncommon, Rare, Ultra Rare and Legendary.
- **Ids.** Both scripts turn a SHA-256 digest into a six-symbol base-36 id
  (`short_hash_case_insensitive`). `short_hash`, an encoder neither script calls, filters URL-safe
  base64 text down to alphanumerics.
- **Cards.** `Card.__init__` computes a card's power rating and rarity.
  It saves the ambient generator state and draws a seed `k` in 1..3. It then
  seeds a sub-stream with `health * k` and draws the secondary attack and the
  ability flag from that sub-stream. Finally it restores the ambient state.
- **Packs in card_gen.py.** Each pack turns its rounded health samples of at
  least 20 into cards and sorts them by power. It prints and tallies the weakest
  card, thirteen sampled interior cards and the strongest card. Across packs it
  keeps the best card seen, the number of cards made and the ability statistics.
- **Packs in rand.py.** The same pipeline runs on `(power, health, attack, seed)`
  tuples and ends in formatted lines.

Python's `random` module is a class, `PyRandom.Random`. Its field `state` is the
ambient state, which every draw advances in place. Each draw is an abstract
function from a state to a value and the next state. Only the documented range
of each draw is known about it. SHA-256 together with `str()` is a digest
function `sha` that callers pass in.

Floating point is replaced by exact reals. `round` and `np.round` become
round-half-even on those reals.

Building a card undoes even the draw of `k`, because the backup of the
ambient state is taken before that draw (`Planning/card_gen.py:63-64`).
`Cards.NewCard` proves that the ambient state is left exactly as it was.

## Model

| member | source | states |
|---|---|---|
| Rarity.Categorize | Planning/card_gen.py:91-106 | the tier bands in both directions: Legendary iff power ≥ 200, Ultra Rare iff 170 ≤ power < 200, Rare iff 138 ≤ power < 170, Uncommon iff 106 ≤ power < 138, Common iff power < 106; so every rating gets exactly one tier; rand.py's copy (Planning/rand.py:134-148) is identical |
| Rarity.CategorizeMonotone | Planning/card_gen.py:94-106 | a higher power rating never yields a lower tier |
| Rarity.LabelInjective | Planning/card_gen.py:225-231 | distinct tiers have distinct labels, so counting by label (the `count` keys) is counting by tier |
| Rounding.RoundHalfEven | Planning/card_gen.py:247 | the result is within one half of x, and is even on a tie |
| Rounding.RoundHalfEvenUnique | Planning/card_gen.py:247 | any integer within one half of x that is even on a tie is the rounded value, so the contract pins the rounding down |
| Rounding.RoundHalfEvenMonotone | Planning/card_gen.py:255 | rounding preserves order |
| Stats.DeriveAttackMonotone | Planning/card_gen.py:255 | a larger uniform draw never gives a smaller attack |
| Identity.Value | Planning/card_gen.py:34-36 | a base-36 numeral of n symbols is below 36^n |
| Identity.Digits | Planning/card_gen.py:34-36 | the w lowest digits form a base-36 string of length w |
| Identity.ValueOfDigits | Planning/card_gen.py:34-36 | reading back the w digits of n gives n mod 36^w |
| Identity.DigitsOfValue | Planning/card_gen.py:34-36 | writing a base-36 string's value in as many digits gives the string back (the inverse direction) |
| Identity.DigitsPrepend | Planning/card_gen.py:35 | each loop step puts the next digit `hash_int % 36` in front |
| Identity.DigitsPad | Planning/card_gen.py:39 | once the number is exhausted, the remaining digits are the '0' padding of `rjust` |
| Identity.Zeros | Planning/card_gen.py:39 | the padding has the requested length and is all '0' |
| Identity.ShortId | Planning/card_gen.py:27-39 | the id has 6 symbols from 0-9A-Z, its base-36 value is the digest mod 36^6, and a zero digest gives "000000" |
| Identity.ShortHashCaseInsensitive | Planning/card_gen.py:30-39 | the extraction loop and the padding yield ShortId of the digest: length 6, base 36, value = digest mod 36^6; rand.py's copy (Planning/rand.py:51-60) is identical |
| Identity.KeepAlnum | Planning/card_gen.py:178 | the filtered text is no longer than the input and entirely alphanumeric |
| Identity.KeepAlnumConcat | Planning/card_gen.py:178 | filtering distributes over concatenation, so the kept characters keep their order |
| Identity.KeepAlnumCounts | Planning/card_gen.py:178 | every alphanumeric character is kept as often as it occurs, and nothing else is kept |
| Identity.KeepAlnumIdentity | Planning/card_gen.py:178 | text that is already alphanumeric passes unchanged |
| Identity.ShortHash | Planning/card_gen.py:158-180 | the result has length min(6, number of alphanumerics), is alphanumeric, and is a prefix of the filtered base64 text; rand.py's copy (Planning/rand.py:7-29) is identical |
| Stats.Dispatch | Planning/card_gen.py:184-205 | Ok iff the name is "normal" or "logistic", otherwise InvalidDistribution before any sampling; the mean is the location; the logistic scale times 1.813 is the standard deviation; rand.py's copy (Planning/rand.py:62-83) is identical |
| Stats.HealthOf | Planning/card_gen.py:247 | `np.round(stat/10)*10` is a multiple of ten within 5 of the sample |
| Stats.Survivors | Planning/card_gen.py:251-253 | no more samples survive the `stat < 20` filter than were given |
| Stats.DeriveAttack | Planning/card_gen.py:255 | for a draw in [0.3h, h] the attack is a multiple of ten in [0, h] |
| PyRandom.Random.GetState | Planning/card_gen.py:63 | returns the ambient state |
| PyRandom.Random.SetState | Planning/card_gen.py:78 | the ambient state becomes the given one |
| PyRandom.Random.Seed | Planning/card_gen.py:65 | the ambient state becomes the seeded state for x |
| PyRandom.Random.RandInt | Planning/card_gen.py:64 | the value and next state are those of the randint draw from the old state |
| PyRandom.Random.Uniform | Planning/card_gen.py:255 | the value and next state are those of the uniform draw from the old state |
| PyRandom.Random.Unit | Planning/card_gen.py:75 | the value and next state are those of the random() draw from the old state |
| PyRandom.Random.Below | Planning/rand.py:166 | the index and next state are those of the choice draw from the old state |
| PyRandom.Random.Sample | Planning/card_gen.py:305 | the positions and next state are those of the sample draw from the old state |
| Cards.DualAttack | Planning/card_gen.py:69-70 | for attack ≥ 70 the secondary attack is a multiple of ten in [20, attack], within 5 of the drawn quarter-to-half of the attack |
| Cards.DualAttackBounds | Planning/card_gen.py:70 | rounding a tenth of a quarter-to-half of an attack ≥ 70 gives at least 20 and at most the attack |
| Cards.AbilityChance | Planning/card_gen.py:73-74 | the chance is at least 0.04, and equals 0.04 exactly at health 70 |
| Cards.AbilityChanceSymmetric | Planning/card_gen.py:73-74 | the chance is symmetric about health 70 |
| Cards.AbilityChanceGrows | Planning/card_gen.py:73-74 | the chance grows with the distance from 70, strictly for a strictly larger distance |
| Cards.AbilityCertain | Planning/card_gen.py:73-75 | the chance exceeds 1 iff the health is more than 128 from 70, and then every draw in [0, 1) grants the ability |
| Cards.CardOf | Planning/card_gen.py:55-80 | the card keeps health and attack; its power is h + 1.2a and its rarity the tier of that power; the secondary attack is 0 iff attack < 70 and otherwise a multiple of ten in [20, attack]; the ability is certain far from 70; the id is the 6-symbol id of the hash of [health, attack, k] for some k in 1..3 |
| Cards.CardDeterminedBySeed | Planning/card_gen.py:63-80 | two ambient states that draw the same k build the same card, because the sub-stream depends on health and k only |
| Cards.CardExamples | Planning/card_gen.py:59-70 | (80, 70) has power 164, is Rare and has a secondary attack; (30, 10) has power 42, is Common and has none |
| Cards.NewCard | Planning/card_gen.py:55-80 | the constructor restores the ambient state exactly and builds CardOf the state on entry |
| Sorting.Insert | Planning/card_gen.py:272 | inserting keeps the elements (as a multiset), adds one, and preserves sortedness |
| Sorting.SortBy | Planning/card_gen.py:272 | the sorted pool is a permutation of the pool, ascending by key |
| Sorting.InsertAt | Planning/card_gen.py:272 | the insertion point lies after a run of elements of smaller key and in front of the first element whose key is at least the inserted one's |
| Sorting.InsertPlace | Planning/card_gen.py:272 | inserting splices the element in at InsertAt and leaves every other element in place and in order |
| Sorting.InsertWithKey | Planning/card_gen.py:272 | an inserted element goes in front of every element of its own key |
| Sorting.SortByStable | Planning/card_gen.py:272 | the sort is stable: for every key value, the elements carrying it keep their order from the input |
| Sorting.Interior | Planning/card_gen.py:303 | `pool[1:-1]` has two fewer elements, or none |
| Sorting.Picked | Planning/card_gen.py:305 | the chosen elements are those at the drawn positions, in draw order |
| Sorting.PickedFromDistinct | Planning/card_gen.py:303-305 | distinct positions choose a sub-multiset of the interior, so no card is chosen twice |
| Sorting.PackOf | Planning/card_gen.py:289-310 | the pack has picks + 2 cards, starts with the pool's first card, ends with its last, and is a sub-multiset of the pool |
| Sorting.PackDraw | Planning/card_gen.py:272-305 | the sorted pool is a permutation of the drawn pool, ascending, and the thirteen positions are distinct interior positions |
| Sorting.SortedExtremes | Planning/card_gen.py:289-294 | after the sort the first card has the least key and the last card the greatest |
| Sorting.PackWithinExtremes | Planning/card_gen.py:289-310 | every printed card lies between the pool's first and last card in power |
| PackSession.Pool | Planning/card_gen.py:249-268 | one pack's pool holds exactly one well-formed card per surviving sample |
| PackSession.NextCard | Planning/card_gen.py:255-257 | a surviving health yields a well-formed card with that health |
| PackSession.NextCardOf | Planning/card_gen.py:255-257 | the uniform draw lies in [0.3h, h], and the card is CardOf the attack derived from it |
| PackSession.MakeCard | Planning/card_gen.py:255-257 | drawing the attack and constructing the card give NextCard of the state on entry, together with its next state |
| PackSession.KeyOrder | Planning/card_gen.py:262-265 | the insertion-ordered keys of `ability_bins` list each recorded health exactly once |
| PackSession.AbilityHealths | Planning/card_gen.py:259-261 | there are no more ability healths than cards |
| PackSession.Record | Planning/card_gen.py:259-265 | recording a health appends it to `ability_stats`, adds one to `abilities_made`, and keeps abilities_made = len(ability_stats) = sum(ability_bins.values()) |
| PackSession.RecordKeeps | Planning/card_gen.py:259-265 | the update of lines 260-265 keeps the ability counters consistent |
| PackSession.RecordBins | Planning/card_gen.py:262-265 | after the bump, the bins count exactly the occurrences of each health |
| PackSession.RecordKeepsSum | Planning/card_gen.py:262-265 | after the bump, the bin counts listed in key order sum to the new length |
| PackSession.RepeatKeepsKeys | Planning/card_gen.py:262-263 | a health already binned adds no key and one to its own count |
| PackSession.NewKeyAppends | Planning/card_gen.py:264-265 | a new health becomes the last key, with count one |
| PackSession.LoggedFacts | Planning/card_gen.py:259-265 | recording a run of healths appends them all, counts them all, and keeps the counters consistent |
| PackSession.NoteAbility | Planning/card_gen.py:259-265 | a card with an ability is recorded; a card without one leaves the counters unchanged |
| PackSession.DrawPool | Planning/card_gen.py:249-268 | the loop yields Pool of the entry state; `cards_made` grows by the number of survivors; the ability log grows by exactly the healths of the cards with abilities and stays consistent |
| PackSession.DrawSortedPool | Planning/card_gen.py:249-272 | the result is Pool of the entry state sorted by power, the state is the one the pool left; `cards_made` grows by the survivors; the ability log grows by exactly the healths of the pool's cards with abilities |
| PackSession.CountOfTiers | Planning/card_gen.py:291-308 | every card has exactly one tier, so the five counts sum to the number of cards |
| PackSession.CountOfPack | Planning/card_gen.py:289-310 | the tier counts of a pack are those of its worst card, its choices and its best card |
| PackSession.TallyChoices | Planning/card_gen.py:305-308 | each tier's counter grows by the number of choices of that tier |
| PackSession.PackBelowBest | Planning/card_gen.py:294-298 | no printed card has more power than the pool's last card |
| PackSession.CountPack | Planning/card_gen.py:291-308 | each tier's counter grows by its count in the printed pack, and the total grows by exactly picks + 2 |
| PackSession.TallyPack | Planning/card_gen.py:291-308 | the tally counts each printed card once; the best power never decreases; the best card changes only on a strict improvement, and then to the pack's last card |
| PackSession.SessionFailureNone | Planning/card_gen.py:289-305 | the session fails iff some pack has fewer than fifteen surviving healths |
| PackSession.SessionFailureAt | Planning/card_gen.py:289-305 | the failure is that of the first short pack: EmptyPool for an empty pool (`valid_cards[0]`), SampleLargerThanPopulation otherwise (`random.sample`) |
| PackSession.SortedPoolWellFormed | Planning/card_gen.py:272 | sorting keeps every card well formed |
| PackSession.DrawPack | Planning/card_gen.py:249-305 | the pool sorted by power, and the thirteen positions drawn from the state the pool left when it has fifteen cards or more; the ability log grows by exactly the healths of the pool's cards with abilities |
| PackSession.PlayPack | Planning/card_gen.py:245-310 | fails iff fewer than fifteen healths survive, with the script's error; otherwise the pack is the first card, thirteen sampled interior cards and the last card of the pool drawn from the state on entry, sorted; the state is the one the sample left; the ability log grows by exactly the healths of that pool's cards with abilities; and the tally takes one pack step |
| PackSession.SessionStart | Planning/card_gen.py:225-240 | the initial counters satisfy the session invariant |
| PackSession.SessionStep | Planning/card_gen.py:241-310 | one more pack keeps the session invariant |
| PackSession.SessionEnd | Planning/card_gen.py:241-310 | the invariant after the last pack gives the session's outcome |
| PackSession.RunSession | Planning/card_gen.py:224-310 | fails iff some pack is short, with the first short pack's error; otherwise there is one fifteen-card pack per batch; each tier's counter equals its printed count and the total is 15 per pack; `cards_made` is the number of survivors; the ability counters are consistent; the best card is the strongest card printed and the last card of the first pack whose last card reaches that power, since a later tie does not replace it; with no batches the best power stays 0; the packs are SessionDraws of the batches from the state on entry, each drawn from the state the previous pack left; the final state is the one the last sample left; the ability statistics are exactly the ability healths of all pools in order, and `abilities_made` is their number |
| PackSession.BatchDraw | Planning/card_gen.py:245-305 | one pack's draws from a state: a fifteen-card pack and no more ability healths than survivors |
| PackSession.SessionDraws | Planning/card_gen.py:241-305 | the draws of all packs in order, each from the state the previous pack left: one fifteen-card pack per batch, and no more ability healths than survivors overall |
| PackSession.SessionDrawsStep | Planning/card_gen.py:241-305 | the draws of p + 1 batches extend those of the first p by one pack drawn from the state they left |
| PackSession.LoggedConcat | Planning/card_gen.py:259-265 | recording a run of healths and then another records their concatenation |
| PackSession.SessionSoFarStep | Planning/card_gen.py:241-310 | one more played pack extends the packs, state and ability log of the session's draws |
| PackSession.SessionSoFarEnd | Planning/card_gen.py:241-310 | after the last batch, the packs, state and ability statistics are those of the session's draws |
| TuplePack.NextTuple | Planning/rand.py:166-171 | a tuple is produced iff the health is at least 20, and it is well formed: power h + 1.2a, attack a multiple of ten in [0, h], seed in 1..3 |
| TuplePack.Tuples | Planning/rand.py:164-171 | there is exactly one well-formed tuple per surviving sample |
| TuplePack.DiscardedStillDraw | Planning/rand.py:165-167 | a ratio is drawn for every sample: when all are discarded, no tuple is made, yet the state has advanced by one choice draw per sample |
| TuplePack.DrawTuple | Planning/rand.py:166-171 | the ratio draw, filter and attack and seed draws give NextTuple of the state on entry |
| TuplePack.DrawTuples | Planning/rand.py:164-171 | the loop yields Tuples of the state on entry |
| TuplePack.FormatCard | Planning/rand.py:150-151 | the line shows the tuple's power, health and attack; the rarity is the tier of the power; the id is the 6-symbol base-36 form of the digest of the whole tuple, seed included |
| TuplePack.Lines | Planning/rand.py:196-197 | one formatted line per tuple, in order |
| TuplePack.FormatPack | Planning/rand.py:190-199 | the printed lines are those of the weakest tuple, the sampled interior tuples in draw order, and the strongest tuple |
| TuplePack.AssemblePack | Planning/rand.py:161-199 | fails iff fewer than fifteen healths survive, with the script's error; otherwise the lines are those of the pack drawn from the sorted tuples |
| TuplePack.PackLinesOrdered | Planning/rand.py:175-199 | a printed pack has fifteen lines; the first is the weakest tuple of the pool and the last the strongest; every line lies between them in power and in tier; each line's tier is that of its power |
| TuplePack.TupleMatchesCard | Planning/rand.py:171 | a tuple and a card of card_gen.py with the same health and attack have the same power rating and tier |

## Left out

- Printing is not modelled. The model returns the lines and cards that would be printed and leaves out their text layout and float formatting. Lines printed before a pack fails are also not kept: `valid_cards[0]` is printed before `random.sample` raises.
- The closing report (`Planning/card_gen.py:312-328`) is left out. It is float percentages and print output. It divides by zero when a tier's count is zero. It would also divide by zero when `cards_made` is zero, but a session that completes has made at least fifteen cards.
- numpy sampling in `generate_stats` is left out because it is a library call. The sampled values are inputs: one batch per pack for `card_gen.py`, and one batch for `rand.py`. `Stats.Dispatch` models only the choice of distribution and the error.
- `PACK_COUNT` is left out. `PackSession.RunSession` runs one pack per batch given. The script gives 10 batches of 28 samples.
- The Mersenne Twister is left out. `PyRandom.Random` knows only the documented range of each draw. `Random.Sample` knows only that its k positions are distinct and lie in the population.
- SHA-256, `str()` and `base64.urlsafe_b64encode` are library calls. The digest function is a parameter, and so is the base64 text in `Identity.ShortHash`.
- Binary floating point is replaced by exact reals. `round`/`np.round` are round-half-even on exact values, so a float's representation error is not modelled.
- The ratio that `random.choice(ratios)` draws is not modelled (`Planning/rand.py:166`). Its value is used only by a commented-out print. The draw itself is modelled.
- `Planning/card_gen.py:70` reads the module-level `att` rather than `self.primary_attack`. Its only caller sets both to the same value, so the model uses the primary attack.
- The in-place `list.sort` is modelled as the value `Sorting.SortBy`, a stable insertion sort; `Sorting.SortByStable` proves the stability that Python's sort guarantees, so the order is the same.
- The following are not part of this model:
  - `generate_card_image`, `plot_distribution`, `logistic_curve_stats`;
  - `Card.__str__`, `Card.__repr__` and `Card.__hash__`;
  - the example card at `Planning/card_gen.py:330-332`;
  - the server and the web page.
