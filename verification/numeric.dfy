/** Numbers as the score engine computes with them.

    JavaScript numbers are modelled as mathematical reals. The one place where the
    engine divides by a quantity that can be zero (the clamp ratio EffEng / EngObs)
    yields a value that is not finite; `Num` keeps track of that outcome. The
    transcendental functions the engine calls are not defined here: they are a
    parameter, `MathLib`, about which only a few bounds are assumed (`Sound`). */
module Numeric {

  /** `Math.min` on finite numbers. */
  function Min(a: real, b: real): (r: real)
    ensures r <= a && r <= b
    ensures r == a || r == b
  {
    if a <= b then a else b
  }

  /** `Math.max` on finite numbers. */
  function Max(a: real, b: real): (r: real)
    ensures a <= r && b <= r
    ensures r == a || r == b
  {
    if a >= b then a else b
  }

  /** A score as JavaScript holds it: a finite number, or NaN / an infinity.
      A non-finite value stays non-finite under addition and under scaling by a
      constant; only an assignment of a fresh constant replaces it. */
  datatype Num = Finite(value: real) | NonFinite {

    /** `x *= k` */
    function Times(k: real): Num {
      if Finite? then Finite(value * k) else NonFinite
    }

    /** `x + y` */
    function Plus(other: Num): Num {
      if Finite? && other.Finite? then Finite(value + other.value) else NonFinite
    }
  }

  /** `Math.log10`, `Math.log` (natural logarithm), `Math.sqrt` and `Math.pow`. */
  datatype MathLib = MathLib(
    log10: real -> real,
    ln: real -> real,
    sqrt: real -> real,
    pow: (real, real) -> real)

  /** The only facts about the library functions that the proofs use. */
  ghost predicate Sound(m: MathLib) {
    && (forall x :: 1.0 <= x ==> 0.0 <= m.log10(x))
    && (forall x :: 1.0 <= x ==> 0.0 <= m.ln(x))
    && (forall x :: 0.0 <= x ==> 0.0 <= m.sqrt(x))
    && (forall s :: 0.0 <= s <= 1.0 ==> 0.0 <= m.pow(s, 1.5) <= 1.0)
  }
}
