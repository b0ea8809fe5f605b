/** The stat sampler: the distribution dispatch of `generate_stats`, the
    rounding of sampled health to a multiple of ten, the health floor, and the
    attack derived from a health value. */
module Stats {
  import opened Outcome
  import opened Rounding

  /** Health values below this are discarded by the pack loops. */
  const HealthFloor: int := 20

  /** The numpy distribution `generate_stats` samples from. */
  datatype Distribution =
    | Normal(loc: real, scale: real)
    | Logistic(loc: real, scale: real)

  /** `generate_stats` up to the sampling call: "normal" keeps the standard
      deviation as the scale, "logistic" divides it by 1.813, anything else
      raises ValueError before any value is drawn. */
  function Dispatch(name: string, mean: real, stdDev: real): (r: Result<Distribution>)
    ensures r.Ok? <==> name == "normal" || name == "logistic"
    ensures r.Err? ==> r.error == InvalidDistribution
    ensures r.Ok? ==> r.value.loc == mean
    ensures r.Ok? ==> r.value.Normal? == (name == "normal")
    ensures r.Ok? && r.value.Logistic? ==> r.value.scale * 1.813 == stdDev
  {
    if name == "normal" then Ok(Normal(mean, stdDev))
    else if name == "logistic" then Ok(Logistic(mean, stdDev / 1.813))
    else Err(InvalidDistribution)
  }

  /** `np.round(stat / 10) * 10`: the nearest multiple of ten, ties to an even
      number of tens. */
  function HealthOf(sample: real): (h: int)
    ensures h % 10 == 0
    ensures sample - 5.0 <= h as real <= sample + 5.0
  {
    RoundHalfEven(sample / 10.0) * 10
  }

  /** Whether a sampled value survives the `stat < 20` filter. */
  predicate Survives(sample: real)
  {
    HealthOf(sample) >= HealthFloor
  }

  /** How many of the samples survive the filter. */
  function Survivors(samples: seq<real>): (n: nat)
    ensures n <= |samples|
  {
    if samples == [] then 0
    else Survivors(samples[..|samples| - 1]) + (if Survives(samples[|samples| - 1]) then 1 else 0)
  }

  /** `round(u * 0.8 / 10) * 10` for the draw u = `random.uniform(0.3 * h, h)`:
      a multiple of ten between 0 and the health. */
  function DeriveAttack(health: int, u: real): (a: int)
    requires health >= HealthFloor
    requires 0.3 * health as real <= u <= health as real
    ensures a % 10 == 0 && 0 <= a <= health
  {
    var n := RoundHalfEven(u * 0.8 / 10.0);
    assert n as real >= u * 0.08 - 0.5;
    assert n as real <= health as real * 0.08 + 0.5;
    assert n <= 2 || health >= 25;
    n * 10
  }

  /** A larger uniform draw never gives a smaller attack. */
  lemma DeriveAttackMonotone(health: int, u1: real, u2: real)
    requires health >= HealthFloor
    requires 0.3 * health as real <= u1 <= u2 <= health as real
    ensures DeriveAttack(health, u1) <= DeriveAttack(health, u2)
  {
    RoundHalfEvenMonotone(u1 * 0.8 / 10.0, u2 * 0.8 / 10.0);
  }
}
