/** What the JavaScript host provides to the engine: `Math.random`,
    `Math.round`, `Math.sqrt` and `Number.MAX_VALUE`. The model does not
    implement the random generator or the square root; it takes them as
    parameters constrained by what they promise. */
module Host {

  /** `Math.random` as a stream of draws: `stream(k)` is the value of the
      k-th call, and `next` counts the calls made so far. Any sequence of
      values in [0, 1) may be chosen, so every behaviour of the source is
      one behaviour of the model. */
  class Random {
    const stream: nat -> real
    var next: nat

    ghost predicate Valid() {
      forall k: nat :: 0.0 <= stream(k) < 1.0
    }

    constructor (stream: nat -> real)
      requires forall k: nat :: 0.0 <= stream(k) < 1.0
      ensures Valid() && this.stream == stream && next == 0
    {
      this.stream := stream;
      next := 0;
    }

    /** One call of `Math.random()`. */
    method Next() returns (r: real)
      requires Valid()
      modifies this
      ensures next == old(next) + 1
      ensures r == stream(old(next)) && 0.0 <= r < 1.0
    {
      r := stream(next);
      next := next + 1;
    }
  }

  /** `sqrt` behaves as `Math.sqrt` on the non-negative reals. */
  ghost predicate IsSqrt(sqrt: real -> real) {
    forall s: real :: 0.0 <= s ==> 0.0 <= sqrt(s) && sqrt(s) * sqrt(s) == s
  }

  /** `Math.round`: the nearest integer, halves rounded up. */
  function Round(x: real): (n: int)
    ensures n as real - 0.5 <= x < n as real + 0.5
  {
    (x + 0.5).Floor
  }

  /** `Math.round(r * 1000)` for a draw `r` of `Math.random()` is an integer
      between 0 and 1000. */
  lemma RoundThousandth(r: real)
    requires 0.0 <= r < 1.0
    ensures 0 <= Round(r * 1000.0) <= 1000
  {
    var n := Round(r * 1000.0);
    assert n as real - 0.5 <= r * 1000.0 < n as real + 0.5;
  }

  /** `Number.MAX_VALUE`, the largest finite double: (2 - 2^-52) * 2^1023. */
  const MaxValue: real := 179769313486231570814527423731704356798070567525844996598917476803157260780028538760589558632766878171540458953514382464234321326889464182768467546703537516986049910576551282076245490090389328944075868508455133942304583236903222948165808559332123348274797826204144723168738177180919299881250404026184124858368.0
}
