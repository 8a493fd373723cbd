/** The transcendental functions the numerical code takes from its array
    library, kept uninterpreted: the proofs use only the facts in `Sound`. */
module Elementary {

  /** The square root and the exponential, as plain real functions. */
  datatype Funcs = Funcs(sqrt: real -> real, exp: real -> real)

  /** What the proofs rely on from the library: a square root that is
      non-negative, positive on positive arguments and zero at zero, and an
      exponential that is positive everywhere. Nothing is required of the
      square root of a negative number (the library returns nan there). */
  ghost predicate Sound(e: Funcs)
  {
    && (forall x :: 0.0 <= x ==> 0.0 <= e.sqrt(x))
    && (forall x :: 0.0 < x ==> 0.0 < e.sqrt(x))
    && e.sqrt(0.0) == 0.0
    && (forall x :: 0.0 < e.exp(x))
  }
}
