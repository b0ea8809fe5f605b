/** The rarity classifier shared by both generation scripts. */
module Rarity {

  /** The five tiers, in increasing order of rarity. The scripts use the
      strings "Common", "Uncommon", "Rare", "Ultra Rare" and "Legendary". */
  datatype Tier = Common | Uncommon | Rare | UltraRare | Legendary

  /** Position of a tier in the order Common < Uncommon < ... < Legendary. */
  function Rank(t: Tier): nat
  {
    match t
    case Common => 0
    case Uncommon => 1
    case Rare => 2
    case UltraRare => 3
    case Legendary => 4
  }

  /** The label the scripts print and use as the key of the tally. */
  function Label(t: Tier): string
  {
    match t
    case Common => "Common"
    case Uncommon => "Uncommon"
    case Rare => "Rare"
    case UltraRare => "Ultra Rare"
    case Legendary => "Legendary"
  }

  /** `categorize_rarity`: thresholds tested highest first. Each tier is the
      band [lower bound, next bound), the lower bounds 200, 170, 138 and 106
      being inclusive, so the five bands cover every power rating once. */
  function Categorize(power: real): (t: Tier)
    ensures t == Legendary <==> 200.0 <= power
    ensures t == UltraRare <==> 170.0 <= power < 200.0
    ensures t == Rare <==> 138.0 <= power < 170.0
    ensures t == Uncommon <==> 106.0 <= power < 138.0
    ensures t == Common <==> power < 106.0
  {
    if power >= 200.0 then Legendary
    else if power >= 170.0 then UltraRare
    else if power >= 138.0 then Rare
    else if power >= 106.0 then Uncommon
    else Common
  }

  /** A higher power rating never yields a lower tier. */
  lemma CategorizeMonotone(p: real, q: real)
    requires p <= q
    ensures Rank(Categorize(p)) <= Rank(Categorize(q))
  {
  }

  /** Distinct tiers have distinct labels, so the string-keyed tally of the
      scripts and the tier-keyed tally of this model count the same things. */
  lemma LabelInjective(s: Tier, t: Tier)
    requires Label(s) == Label(t)
    ensures s == t
  {
  }
}
