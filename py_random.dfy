/**
 * Python's process-wide `random` module, as the bot uses it: `random.seed`,
 * `random.choice` and `random.randint` on one shared generator.
 *
 * The generator's algorithm is not part of this model. A `Generator` names
 * the three things the bot depends on: the state a seed produces, the value
 * `_randbelow(n)` draws from a state, and the state that draw leaves behind.
 */
module PyRandom {

  type State = nat

  datatype Generator = Generator(
    seeded: int -> State,
    below: (State, nat) -> nat,
    next: (State, nat) -> State)

  /** `_randbelow(n)` draws a value in [0, n) for every positive `n`. */
  ghost predicate WellFormed(g: Generator)
  {
    forall s: State, n: nat :: 0 < n ==> g.below(s, n) < n
  }

  /** One `_randbelow(n)` from state `s`: the value drawn and the state after it. */
  function Draw(g: Generator, s: State, n: nat): (d: (nat, State))
    requires WellFormed(g) && 0 < n
    ensures d.0 < n
  {
    (g.below(s, n), g.next(s, n))
  }

  /** The generator state shared by every caller of the `random` module. */
  class Random {
    const gen: Generator
    var state: State

    constructor (g: Generator, s: State)
      ensures gen == g && state == s
    {
      gen := g;
      state := s;
    }

    /** `random.seed(a)`: the state becomes a function of `a` alone. */
    method Seed(a: int)
      modifies this
      ensures state == gen.seeded(a)
    {
      state := gen.seeded(a);
    }

    /** `random._randbelow(n)`. */
    method RandBelow(n: nat) returns (k: nat)
      requires WellFormed(gen) && 0 < n
      modifies this
      ensures k < n && (k, state) == Draw(gen, old(state), n)
    {
      k := gen.below(state, n);
      state := gen.next(state, n);
    }

    /**
     * `random.choice(xs)`, which draws `_randbelow(len(xs))` and returns that element.
     * The element it returns is the one at the drawn index.
     */
    method Choice<T>(xs: seq<T>) returns (x: T)
      requires WellFormed(gen) && 0 < |xs|
      modifies this
      ensures x in xs
      ensures x == xs[Draw(gen, old(state), |xs|).0] && state == Draw(gen, old(state), |xs|).1
    {
      var k := RandBelow(|xs|);
      x := xs[k];
    }

    /** `random.randint(a, b)`, which is `a + _randbelow(b - a + 1)`. */
    method RandInt(a: int, b: int) returns (r: int)
      requires WellFormed(gen) && a <= b
      modifies this
      ensures a <= r <= b
      ensures r == a + Draw(gen, old(state), b - a + 1).0 && state == Draw(gen, old(state), b - a + 1).1
    {
      var k := RandBelow(b - a + 1);
      r := a + k;
    }
  }
}
