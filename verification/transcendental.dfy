/** The real functions the simulator takes from numpy and cmath. They are given to the model
    as values, with only the laws the model relies on, instead of being computed. */
module Transcendental {

  datatype Transcendentals = Transcendentals(
    sin: real -> real,
    cos: real -> real,
    sqrt: real -> real,
    atan2: (real, real) -> real,  // atan2(y, x), the argument of x + jy as cmath.phase computes it
    pi: real)
  {
    ghost predicate Valid() {
      && pi > 0.0
      && sin(0.0) == 0.0
      && cos(0.0) == 1.0
      && (forall x {:trigger At(x)} :: LawsAt(x))
    }

    /** The laws at one point: sin is odd and bounded by 1, sin^2 + cos^2 = 1, sqrt is the
        non-negative root, and a non-negative real has argument 0. */
    ghost predicate LawsAt(x: real) {
      && sin(-x) == -sin(x)
      && -1.0 <= sin(x) <= 1.0
      && sin(x) * sin(x) + cos(x) * cos(x) == 1.0
      && (0.0 <= x ==> 0.0 <= sqrt(x) && sqrt(x) * sqrt(x) == x)
      && (0.0 <= x ==> atan2(0.0, x) == 0.0)
    }

    /** The laws of a valid set of functions at the point x. */
    lemma Laws(x: real)
      requires Valid()
      ensures LawsAt(x)
    {
      assert At(x) == x;
    }

    /** The principal square root of a square is the absolute value. */
    lemma SqrtOfSquare(x: real)
      requires Valid()
      ensures sqrt(x * x) == if x < 0.0 then -x else x
    {
      var a := if x < 0.0 then -x else x;
      Laws(x * x);
      assert 0.0 <= x * x == a * a;
      NonnegativeRootUnique(sqrt(x * x), a);
    }

    /** sqrt(3) is positive and squares to 3. */
    lemma SqrtThree()
      requires Valid()
      ensures sqrt(3.0) > 0.0 && sqrt(3.0) * sqrt(3.0) == 3.0
    {
      Laws(3.0);
    }

    /** sqrt(2) is positive and squares to 2. */
    lemma SqrtTwo()
      requires Valid()
      ensures sqrt(2.0) > 0.0 && sqrt(2.0) * sqrt(2.0) == 2.0
    {
      Laws(2.0);
    }
  }

  /** The marker on which the laws of Valid() are instantiated: a proof applies them at x
      by mentioning At(x), which Laws does. */
  ghost function At(x: real): real {
    x
  }

  /** Two non-negative reals with equal squares are equal. */
  lemma NonnegativeRootUnique(s: real, a: real)
    requires 0.0 <= s && 0.0 <= a && s * s == a * a
    ensures s == a
  {
    var d, e := s - a, s + a;
    assert d * e == s * s - a * a;
  }
}
