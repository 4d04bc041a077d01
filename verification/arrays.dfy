/** The numpy array operations the simulator relies on, over exact reals:
    linspace, gradient, argmax, max and concatenate. */
module Arrays {

  function Abs(x: real): real {
    if x < 0.0 then -x else x
  }

  /** The spacing np.linspace(a, b, n) uses between consecutive samples. */
  function Step(a: real, b: real, n: nat): real
    requires n >= 2
  {
    (b - a) / ((n - 1) as real)
  }

  /** np.linspace(a, b, n): n samples from a to b inclusive, uniformly spaced. */
  function Linspace(a: real, b: real, n: nat): (r: seq<real>)
    ensures |r| == n
    ensures n >= 1 ==> r[0] == a
  {
    if n == 1 then [a]
    else seq(n, i requires 0 <= i < n => a + (i as real) * Step(a, b, n))
  }

  /** The grid ends exactly at b and its consecutive samples are Step(a, b, n) apart. */
  lemma LinspaceUniform(a: real, b: real, n: nat)
    requires n >= 2
    ensures Linspace(a, b, n)[n - 1] == b
    ensures UniformlySpaced(Linspace(a, b, n), Step(a, b, n))
  {
    var h, r := Step(a, b, n), Linspace(a, b, n);
    var m := (n - 1) as real;
    assert r[n - 1] == a + m * h;
    assert a + m * ((b - a) / m) == b;
    forall i | 0 <= i < n - 1
      ensures r[i + 1] - r[i] == h
    {
      var k := i as real;
      assert r[i + 1] == a + (k + 1.0) * h;
      assert r[i] == a + k * h;
      assert (a + (k + 1.0) * h) - (a + k * h) == h;
    }
  }

  /** np.gradient(f, x) with first-order edges: one-sided differences at the two ends and,
      inside, numpy's second-order formula for possibly uneven spacing. */
  function Gradient(f: seq<real>, x: seq<real>): (g: seq<real>)
    requires |f| == |x| >= 2 && Separated(x)
    ensures |g| == |f| && forall i :: 0 <= i < |f| ==> g[i] == GradientAt(f, x, i)
  {
    seq(|f|, i requires 0 <= i < |f| => GradientAt(f, x, i))
  }

  /** Element i of np.gradient(f, x). */
  function GradientAt(f: seq<real>, x: seq<real>, i: nat): real
    requires |f| == |x| >= 2 && Separated(x) && i < |f|
  {
    if i == 0 then (f[1] - f[0]) / (x[1] - x[0])
    else if i == |f| - 1 then (f[i] - f[i - 1]) / (x[i] - x[i - 1])
    else Interior(x[i] - x[i - 1], x[i + 1] - x[i], f[i - 1], f[i], f[i + 1])
  }

  /** numpy's second-order formula at an interior sample with value b, neighbours a and c, and
      spacings dx1 before and dx2 after it. */
  function Interior(dx1: real, dx2: real, a: real, b: real, c: real): real
    requires dx1 != 0.0 && dx2 != 0.0 && dx1 + dx2 != 0.0
  {
    -dx2 / (dx1 * (dx1 + dx2)) * a + (dx2 - dx1) / (dx1 * dx2) * b + dx1 / (dx2 * (dx1 + dx2)) * c
  }

  /** No two neighbouring samples, and no two samples one apart, coincide: the divisions
      in Gradient are defined. */
  predicate Separated(x: seq<real>) {
    && (forall i :: 0 <= i < |x| - 1 ==> x[i + 1] != x[i])
    && (forall i :: 0 <= i < |x| - 2 ==> x[i + 2] != x[i])
  }

  /** Uniform spacing h between all consecutive samples of x. */
  ghost predicate UniformlySpaced(x: seq<real>, h: real) {
    forall i :: 0 <= i < |x| - 1 ==> x[i + 1] - x[i] == h
  }

  /** The finite difference np.gradient takes at sample i of a grid with spacing h. */
  function UniformDifference(f: seq<real>, h: real, i: nat): real
    requires |f| >= 2 && h != 0.0 && i < |f|
  {
    if i == 0 then (f[1] - f[0]) / h
    else if i == |f| - 1 then (f[i] - f[i - 1]) / h
    else (f[i + 1] - f[i - 1]) / (2.0 * h)
  }

  /** A uniform grid with non-zero spacing is separated. */
  lemma UniformSeparated(x: seq<real>, h: real)
    requires h != 0.0 && UniformlySpaced(x, h)
    ensures Separated(x)
  {
    forall i | 0 <= i < |x| - 2
      ensures x[i + 2] != x[i]
    {
      assert x[i + 2] - x[i + 1] == h;
      assert x[i + 1] - x[i] == h;
    }
  }

  /** On a uniform grid the gradient is the centred difference inside and the one-sided
      differences at the two ends. */
  lemma UniformGradient(f: seq<real>, x: seq<real>, h: real, i: nat)
    requires |f| == |x| >= 2 && h != 0.0 && UniformlySpaced(x, h) && i < |f|
    ensures Separated(x)
    ensures Gradient(f, x)[i] == UniformDifference(f, h, i)
  {
    UniformSeparated(x, h);
    if 0 < i < |f| - 1 {
      var dx1, dx2 := x[i] - x[i - 1], x[i + 1] - x[i];
      assert dx1 == h && dx2 == h;
      assert GradientAt(f, x, i) == Interior(dx1, dx2, f[i - 1], f[i], f[i + 1]);
      CentredWeights(h, f[i - 1], f[i], f[i + 1]);
    }
  }

  /** numpy's uneven-spacing weights at spacing h on both sides are -1/2h, 0 and 1/2h, so the
      formula is the centred difference. */
  lemma CentredWeights(h: real, a: real, b: real, c: real)
    requires h != 0.0
    ensures h + h != 0.0 && Interior(h, h, a, b, c) == (c - a) / (2.0 * h)
  {
    assert h * (h + h) == h * (2.0 * h);
    assert h / (h * (h + h)) == 1.0 / (2.0 * h);
  }

  /** The gradient of samples of a straight line c + k x on a uniform grid is k everywhere. */
  lemma GradientOfLine(f: seq<real>, x: seq<real>, h: real, c: real, k: real)
    requires |f| == |x| >= 2 && h != 0.0 && UniformlySpaced(x, h)
    requires forall i :: 0 <= i < |f| ==> f[i] == c + k * x[i]
    ensures Separated(x)
    ensures forall i :: 0 <= i < |f| ==> Gradient(f, x)[i] == k
  {
    UniformSeparated(x, h);
    forall i | 0 <= i < |f|
      ensures Gradient(f, x)[i] == k
    {
      GradientOfLineAt(f, x, h, c, k, i);
    }
  }

  lemma GradientOfLineAt(f: seq<real>, x: seq<real>, h: real, c: real, k: real, i: nat)
    requires |f| == |x| >= 2 && h != 0.0 && UniformlySpaced(x, h) && i < |f|
    requires forall j :: 0 <= j < |f| ==> f[j] == c + k * x[j]
    ensures Separated(x) && Gradient(f, x)[i] == k
  {
    UniformGradient(f, x, h, i);
    DifferenceOfLine(f, x, h, c, k, i);
  }

  lemma DifferenceOfLine(f: seq<real>, x: seq<real>, h: real, c: real, k: real, i: nat)
    requires |f| == |x| >= 2 && h != 0.0 && UniformlySpaced(x, h) && i < |f|
    requires forall j :: 0 <= j < |f| ==> f[j] == c + k * x[j]
    ensures UniformDifference(f, h, i) == k
  {
    var n := |f|;
    if i == 0 {
      LineRise(x[0], x[1], c, k);
      assert (k * h) / h == k;
    } else if i == n - 1 {
      assert x[(i - 1) + 1] - x[i - 1] == h;
      assert f[i] - f[i - 1] == (c + k * x[i]) - (c + k * x[i - 1]);
      LineRise(x[i - 1], x[i], c, k);
      assert (k * h) / h == k;
      assert UniformDifference(f, h, i) == (f[i] - f[i - 1]) / h;
    } else {
      assert x[i + 1] - x[i] == h && x[i] - x[i - 1] == h;
      LineRise(x[i - 1], x[i + 1], c, k);
      assert (k * (2.0 * h)) / (2.0 * h) == k;
    }
  }

  lemma LineRise(x0: real, x1: real, c: real, k: real)
    ensures (c + k * x1) - (c + k * x0) == k * (x1 - x0)
  {
  }

  /** Multiplying and dividing by the same non-zero number cancel, in either order. */
  lemma Cancel(x: real, d: real)
    requires d != 0.0
    ensures (x * d) / d == x
    ensures x / d * d == x
  {
  }

  /** np.argmax: the first index holding the largest element. */
  function ArgMax(s: seq<real>): (k: nat)
    requires |s| > 0
    ensures k < |s|
    ensures forall j :: 0 <= j < |s| ==> s[j] <= s[k]
    ensures forall j :: 0 <= j < k ==> s[j] < s[k]
  {
    if |s| == 1 then 0
    else
      var k := ArgMax(s[..|s| - 1]);
      if s[|s| - 1] > s[k] then |s| - 1 else k
  }

  /** np.max: the largest element. */
  function Max(s: seq<real>): (m: real)
    requires |s| > 0
    ensures forall j :: 0 <= j < |s| ==> s[j] <= m
    ensures exists j :: 0 <= j < |s| && s[j] == m
  {
    if |s| == 1 then s[0]
    else
      var m := Max(s[..|s| - 1]);
      if s[|s| - 1] > m then s[|s| - 1] else m
  }

  /** The elementwise absolute value, np.abs. */
  function AbsAll(s: seq<real>): (r: seq<real>)
    ensures |r| == |s| && forall i :: 0 <= i < |s| ==> r[i] == Abs(s[i])
  {
    seq(|s|, i requires 0 <= i < |s| => Abs(s[i]))
  }

  /** np.concatenate of a list of arrays: as long as all the parts together. */
  function Concat<T>(parts: seq<seq<T>>): (r: seq<T>)
    ensures |r| == TotalLength(parts)
  {
    if parts == [] then [] else Concat(parts[..|parts| - 1]) + parts[|parts| - 1]
  }

  /** The total length of a list of arrays. */
  function TotalLength<T>(parts: seq<seq<T>>): nat
  {
    if parts == [] then 0 else TotalLength(parts[..|parts| - 1]) + |parts[|parts| - 1]|
  }

  /** The concatenation holds part j at offset TotalLength(parts[..j]), element by element. */
  lemma {:induction false} ConcatAt<T>(parts: seq<seq<T>>, j: nat, i: nat)
    requires j < |parts| && i < |parts[j]|
    ensures TotalLength(parts[..j]) + i < TotalLength(parts)
    ensures Concat(parts)[TotalLength(parts[..j]) + i] == parts[j][i]
  {
    var n := |parts|;
    var init := parts[..n - 1];
    PrefixLengthBounded(parts);
    PrefixLengthBounded(init);
    if j == n - 1 {
      assert parts[..j] == init;
    } else {
      ConcatAt(init, j, i);
      assert init[..j] == parts[..j];
    }
  }

  /** The earlier parts together are never longer than all of them. */
  lemma {:induction false} PrefixLengthBounded<T>(parts: seq<seq<T>>)
    ensures forall j :: 0 <= j <= |parts| ==> TotalLength(parts[..j]) <= TotalLength(parts)
  {
    if parts != [] {
      var init := parts[..|parts| - 1];
      PrefixLengthBounded(init);
      forall j | 0 <= j <= |parts|
        ensures TotalLength(parts[..j]) <= TotalLength(parts)
      {
        if j < |parts| {
          assert init[..j] == parts[..j];
        } else {
          assert parts[..j] == parts;
        }
      }
    }
  }
}
