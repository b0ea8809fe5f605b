/** Python's `random` module as the scripts use it: one ambient generator
    whose state every draw advances in place. The Mersenne Twister itself is
    not modelled; each draw is a fixed function from the current state to a
    value and the next state, about which only what the library documents is
    known (the range of the value). */
module PyRandom {

  /** The generator state, as `random.getstate()` returns it (a tuple of
      integers). */
  type GenState = seq<int>

  class Random {
    /** The ambient state the module-level functions read and advance. */
    var state: GenState

    /** `random.randint(lo, hi)`. */
    const randInt: (GenState, int, int) -> (int, GenState)
    /** `random.uniform(a, b)`. */
    const uniform: (GenState, real, real) -> (real, GenState)
    /** `random.random()`. */
    const unit: GenState -> (real, GenState)
    /** The state `random.seed(x)` installs. */
    const seeded: int -> GenState
    /** The index `random.choice` takes from a sequence of length n. */
    const below: (GenState, nat) -> (nat, GenState)
    /** The positions `random.sample(population, k)` picks from a population
        of size n. */
    const sample: (GenState, nat, nat) -> (seq<nat>, GenState)

    /** What the library documents about each draw. */
    ghost predicate Laws()
    {
      && (forall s, lo, hi :: lo <= hi ==> lo <= randInt(s, lo, hi).0 <= hi)
      && (forall s, a, b :: a <= b ==> a <= uniform(s, a, b).0 <= b)
      && (forall s :: 0.0 <= unit(s).0 < 1.0)
      && (forall s, n :: n > 0 ==> below(s, n).0 < n)
      && (forall s, n, k :: k <= n ==> Distinct(sample(s, n, k).0, n) && |sample(s, n, k).0| == k)
    }

    constructor (initial: GenState,
                 randInt: (GenState, int, int) -> (int, GenState),
                 uniform: (GenState, real, real) -> (real, GenState),
                 unit: GenState -> (real, GenState),
                 seeded: int -> GenState,
                 below: (GenState, nat) -> (nat, GenState),
                 sample: (GenState, nat, nat) -> (seq<nat>, GenState))
      requires forall s, lo, hi :: lo <= hi ==> lo <= randInt(s, lo, hi).0 <= hi
      requires forall s, a, b :: a <= b ==> a <= uniform(s, a, b).0 <= b
      requires forall s :: 0.0 <= unit(s).0 < 1.0
      requires forall s, n :: n > 0 ==> below(s, n).0 < n
      requires forall s, n, k :: k <= n ==> Distinct(sample(s, n, k).0, n) && |sample(s, n, k).0| == k
      ensures Laws() && state == initial
      ensures this.randInt == randInt && this.uniform == uniform && this.unit == unit
      ensures this.seeded == seeded && this.below == below && this.sample == sample
    {
      state := initial;
      this.randInt := randInt;
      this.uniform := uniform;
      this.unit := unit;
      this.seeded := seeded;
      this.below := below;
      this.sample := sample;
    }

    /** `random.getstate()`. */
    method GetState() returns (s: GenState)
      ensures s == state
    {
      s := state;
    }

    /** `random.setstate(s)`. */
    method SetState(s: GenState)
      modifies this
      ensures state == s
    {
      state := s;
    }

    /** `random.seed(x)`. */
    method Seed(x: int)
      modifies this
      ensures state == seeded(x)
    {
      state := seeded(x);
    }

    /** `random.randint(lo, hi)`. */
    method RandInt(lo: int, hi: int) returns (v: int)
      modifies this
      ensures (v, state) == randInt(old(state), lo, hi)
    {
      v, state := randInt(state, lo, hi).0, randInt(state, lo, hi).1;
    }

    /** `random.uniform(a, b)`. */
    method Uniform(a: real, b: real) returns (v: real)
      modifies this
      ensures (v, state) == uniform(old(state), a, b)
    {
      v, state := uniform(state, a, b).0, uniform(state, a, b).1;
    }

    /** `random.random()`. */
    method Unit() returns (v: real)
      modifies this
      ensures (v, state) == unit(old(state))
    {
      v, state := unit(state).0, unit(state).1;
    }

    /** The index drawn by `random.choice` on a sequence of length n. */
    method Below(n: nat) returns (v: nat)
      modifies this
      ensures (v, state) == below(old(state), n)
    {
      v, state := below(state, n).0, below(state, n).1;
    }

    /** `random.sample` over a population of n, for k <= n. */
    method Sample(n: nat, k: nat) returns (picks: seq<nat>)
      modifies this
      ensures (picks, state) == sample(old(state), n, k)
    {
      picks, state := sample(state, n, k).0, sample(state, n, k).1;
    }
  }

  /** k distinct positions of a population of size n. */
  predicate Distinct(picks: seq<nat>, n: nat)
  {
    && (forall i :: 0 <= i < |picks| ==> picks[i] < n)
    && (forall i, j :: 0 <= i < j < |picks| ==> picks[i] != picks[j])
  }
}
