/** Escape-time evaluation of one column section of the image, and its
    composition with the colour themes (fractals.py). */
module Fractals {
  import Themes

  // ---------------------------------------------------------------------------
  // Complex numbers over exact reals
  // ---------------------------------------------------------------------------

  datatype Complex = Complex(re: real, im: real)

  const Zero := Complex(0.0, 0.0)
  const One := Complex(1.0, 0.0)

  function Add(a: Complex, b: Complex): Complex {
    Complex(a.re + b.re, a.im + b.im)
  }

  function Sub(a: Complex, b: Complex): Complex {
    Complex(a.re - b.re, a.im - b.im)
  }

  function Mul(a: Complex, b: Complex): Complex {
    Complex(a.re * b.re - a.im * b.im, a.re * b.im + a.im * b.re)
  }

  /** Re(z)^2 + Im(z)^2, the quantity the escape test compares with 4. */
  function NormSq(z: Complex): real {
    z.re * z.re + z.im * z.im
  }

  /** a / b; a zero divisor gives 0 (see NewtonStep). */
  function Div(a: Complex, b: Complex): Complex {
    var d := NormSq(b);
    if d == 0.0 then Zero
    else Complex((a.re * b.re + a.im * b.im) / d, (a.im * b.re - a.re * b.im) / d)
  }

  /** One Newton step for p(z) = z^3 - 1, z - (z^3 - 1) / (3 z^2). The
      denominator vanishes only at z = 0, where the step gives 0 - 0 = 0. */
  function NewtonStep(z: Complex): Complex {
    var z2 := Mul(z, z);
    Sub(z, Div(Sub(Mul(z, z2), One), Mul(Complex(3.0, 0.0), z2)))
  }

  /** The origin, where the source divides by zero, is a fixed point of the
      model's step. */
  lemma NewtonFixesZero()
    ensures NewtonStep(Zero) == Zero
  {
    assert Mul(Zero, Zero) == Zero;
    assert NormSq(Mul(Complex(3.0, 0.0), Zero)) == 0.0;
  }

  /** The root 1 of z^3 - 1 is a fixed point of the Newton step. */
  lemma NewtonFixesOne()
    ensures NewtonStep(One) == One
  {
    assert Mul(One, One) == One;
    assert Sub(Mul(One, One), One) == Zero;
    var den := Mul(Complex(3.0, 0.0), One);
    assert den == Complex(3.0, 0.0);
    assert Div(Zero, den) == Zero;
  }

  // ---------------------------------------------------------------------------
  // The plane, the three recurrences and the escape loop
  // ---------------------------------------------------------------------------

  /** The rectangle of the complex plane shown by the image. */
  datatype Viewport = Viewport(xMin: real, xMax: real, yMin: real, yMax: real)

  /** The plane point of global column gx and row i of a width x height image. */
  function PixelPoint(vp: Viewport, width: int, height: int, gx: int, i: int): Complex
    requires width != 0 && height != 0
  {
    Complex(vp.xMin + (gx as real) * (vp.xMax - vp.xMin) / (width as real),
            vp.yMin + (i as real) * (vp.yMax - vp.yMin) / (height as real))
  }

  /** Column 0 and row 0 sit on the low edges of the viewport, column width
      and row height on the high edges. */
  lemma PixelPointCorners(vp: Viewport, width: int, height: int)
    requires width != 0 && height != 0
    ensures PixelPoint(vp, width, height, 0, 0) == Complex(vp.xMin, vp.yMin)
    ensures PixelPoint(vp, width, height, width, height) == Complex(vp.xMax, vp.yMax)
  {
  }

  /** The n-th point of the orbit that starts at z0 and applies step. */
  function Orbit(z0: Complex, step: Complex -> Complex, n: nat): Complex {
    if n == 0 then z0 else step(Orbit(z0, step, n - 1))
  }

  /** The escape test |z|^2 >= 4. */
  predicate Escaped(z: Complex) {
    NormSq(z) >= 4.0
  }

  /** The iteration count of the loop that starts at z and applies step while
      the point has not escaped and fewer than max steps were taken. */
  function EscapeTime(z: Complex, step: Complex -> Complex, max: int): (n: nat)
    ensures max >= 0 ==> n <= max
    ensures max < 0 ==> n == 0
    decreases max
  {
    if max <= 0 || Escaped(z) then 0 else 1 + EscapeTime(step(z), step, max - 1)
  }

  /** The orbit of step(z0) is the orbit of z0 one step on. */
  lemma {:induction false} OrbitShift(z0: Complex, step: Complex -> Complex, k: nat)
    ensures Orbit(step(z0), step, k) == Orbit(z0, step, k + 1)
  {
    if k > 0 {
      OrbitShift(z0, step, k - 1);
    }
  }

  /** What the loop promises of a count n: it lies in [0, max], no orbit point
      before the n-th has escaped, and n is below the cap only if the n-th has. */
  ghost predicate IsEscapeTime(z0: Complex, step: Complex -> Complex, max: int, n: nat) {
    && (max >= 0 ==> n <= max)
    && (max < 0 ==> n == 0)
    && (forall k: nat :: k < n ==> !Escaped(Orbit(z0, step, k)))
    && (n < max ==> Escaped(Orbit(z0, step, n)))
  }

  /** EscapeTime is the index of the first escaping orbit point, capped at max ... */
  lemma {:induction false} EscapeTimeSpec(z0: Complex, step: Complex -> Complex, max: int)
    ensures IsEscapeTime(z0, step, max, EscapeTime(z0, step, max))
    decreases max
  {
    if !(max <= 0 || Escaped(z0)) {
      var m := EscapeTime(step(z0), step, max - 1);
      EscapeTimeSpec(step(z0), step, max - 1);
      forall k: nat | k < m + 1
        ensures !Escaped(Orbit(z0, step, k))
      {
        if k > 0 {
          OrbitShift(z0, step, k - 1);
        }
      }
      OrbitShift(z0, step, m);
    }
  }

  /** ... and the only count with that property. */
  lemma EscapeTimeUnique(z0: Complex, step: Complex -> Complex, max: int, n: nat)
    requires IsEscapeTime(z0, step, max, n)
    ensures n == EscapeTime(z0, step, max)
  {
    EscapeTimeSpec(z0, step, max);
    var e := EscapeTime(z0, step, max);
    if n < e {
      assert false;
    } else if e < n {
      assert false;
    }
  }

  /** An orbit that starts on a fixed point of the step inside the disk never
      escapes, so its count is the cap. */
  lemma {:induction false} FixedPointReachesCap(z0: Complex, step: Complex -> Complex, max: int)
    requires max >= 0 && step(z0) == z0 && !Escaped(z0)
    ensures EscapeTime(z0, step, max) == max
    decreases max
  {
    if max > 0 {
      FixedPointReachesCap(z0, step, max - 1);
    }
  }

  /** The orbit of z0 reaches, after m steps none of which escapes, a fixed
      point of the step. */
  ghost predicate FixedAfter(z0: Complex, step: Complex -> Complex, m: nat) {
    && step(Orbit(z0, step, m)) == Orbit(z0, step, m)
    && forall k: nat :: k <= m ==> !Escaped(Orbit(z0, step, k))
  }

  lemma FixedAtStart(z0: Complex, step: Complex -> Complex)
    requires step(z0) == z0 && !Escaped(z0)
    ensures FixedAfter(z0, step, 0)
  {
  }

  /** An orbit that reaches a fixed point of the step inside the disk runs the
      loop up to the cap. */
  lemma {:induction false} EventuallyFixedReachesCap(z0: Complex, step: Complex -> Complex, m: nat, max: int)
    requires max >= 0 && FixedAfter(z0, step, m)
    ensures EscapeTime(z0, step, max) == max
    decreases m
  {
    if m == 0 {
      FixedPointReachesCap(z0, step, max);
    } else if max > 0 {
      assert !Escaped(Orbit(z0, step, 0));
      forall k: nat | k <= m - 1
        ensures Orbit(step(z0), step, k) == Orbit(z0, step, k + 1)
      {
        OrbitShift(z0, step, k);
      }
      EventuallyFixedReachesCap(step(z0), step, m - 1, max - 1);
    }
  }

  /** The escape loop for one pixel: iterate from z0 while |z|^2 < 4 and the cap
      has not been reached. */
  method EscapeCount(z0: Complex, step: Complex -> Complex, max: int) returns (count: nat, z: Complex)
    ensures count == EscapeTime(z0, step, max)
    ensures z == Orbit(z0, step, count)
    ensures count < max ==> Escaped(z)
  {
    z := z0;
    count := 0;
    while z.re * z.re + z.im * z.im < 4.0 && count < max
      invariant max >= 0 ==> count <= max
      invariant max < 0 ==> count == 0
      invariant z == Orbit(z0, step, count)
      invariant count + EscapeTime(z, step, max - count) == EscapeTime(z0, step, max)
      decreases max - count
    {
      z := step(z);
      count := count + 1;
    }
  }

  /** With a positive cap the count is 0 exactly when the start point has
      already escaped. */
  lemma CountZeroIffStartEscaped(z0: Complex, step: Complex -> Complex, max: int)
    requires max >= 1
    ensures EscapeTime(z0, step, max) == 0 <==> Escaped(z0)
  {
    EscapeTimeSpec(z0, step, max);
  }

  // ---------------------------------------------------------------------------
  // The three recurrences
  // ---------------------------------------------------------------------------

  /** z -> z * z + c, the update of both the Mandelbrot and the Julia loop. */
  function Quadratic(c: Complex): Complex -> Complex {
    z => Add(Mul(z, z), c)
  }

  /** The Mandelbrot orbit of the plane point c starts at 0. */
  function MandelbrotStart(c: Complex): Complex {
    Zero
  }

  /** The Julia and Fatou orbits start at the plane point itself. */
  function OwnPoint(c: Complex): Complex {
    c
  }

  /** The iteration count of mandelbrot_section_jit for the plane point c. The
      loop starts at 0, which never escapes, and its first step lands on c; from
      there on it is the Julia loop of constant c started at c
      (MandelbrotFromOrigin). */
  function MandelbrotCount(c: Complex, max: int): (n: nat)
    ensures max >= 0 ==> n <= max
  {
    if max <= 0 then 0 else 1 + JuliaCount(c, c, max - 1)
  }

  /** The iteration count of julia_section_jit, with constant c, for the plane point z. */
  function JuliaCount(c: Complex, z: Complex, max: int): (n: nat)
    ensures max >= 0 ==> n <= max
  {
    EscapeTime(z, Quadratic(c), max)
  }

  /** The iteration count of fatou_section_jit for the plane point z. */
  function FatouCount(z: Complex, max: int): (n: nat)
    ensures max >= 0 ==> n <= max
  {
    EscapeTime(z, NewtonStep, max)
  }

  /** A loop whose start point lies in the disk and whose first step lands on c
      counts one more than the Julia loop of c started at c. */
  lemma FirstStepLandsOn(z0: Complex, c: Complex, max: int)
    requires !Escaped(z0) && Quadratic(c)(z0) == c
    ensures EscapeTime(z0, Quadratic(c), max) == MandelbrotCount(c, max)
  {
    if max > 0 {
      assert EscapeTime(z0, Quadratic(c), max) == 1 + EscapeTime(c, Quadratic(c), max - 1);
    }
  }

  lemma QuadraticAtOrigin(c: Complex)
    ensures Quadratic(c)(Zero) == c
  {
    assert Mul(Zero, Zero) == Zero;
  }

  /** The loop of mandelbrot_section_jit, started at 0, counts MandelbrotCount. */
  lemma MandelbrotFromOrigin(c: Complex, max: int)
    ensures EscapeTime(Zero, Quadratic(c), max) == MandelbrotCount(c, max)
  {
    OriginInside();
    QuadraticAtOrigin(c);
    FirstStepLandsOn(Zero, c, max);
  }

  /** With a positive cap every Mandelbrot count is at least 1. */
  lemma MandelbrotCountPositive(c: Complex, max: int)
    requires max >= 1
    ensures MandelbrotCount(c, max) >= 1
  {
    MandelbrotFromOrigin(c, max);
    CountZeroIffStartEscaped(Zero, Quadratic(c), max);
    OriginInside();
  }

  /** Julia counts 0 exactly when the pixel's own point lies outside the disk. */
  lemma JuliaCountZero(c: Complex, z: Complex, max: int)
    requires max >= 1
    ensures JuliaCount(c, z, max) == 0 <==> Escaped(z)
  {
    CountZeroIffStartEscaped(z, Quadratic(c), max);
  }

  /** So does Fatou. */
  lemma FatouCountZero(z: Complex, max: int)
    requires max >= 1
    ensures FatouCount(z, max) == 0 <==> Escaped(z)
  {
    CountZeroIffStartEscaped(z, NewtonStep, max);
  }

  /** A point of the disk that z -> z * z + c fixes reaches the cap. */
  lemma QuadraticFixedPointReachesCap(c: Complex, z: Complex, max: int)
    requires max >= 0 && Add(Mul(z, z), c) == z && !Escaped(z)
    ensures JuliaCount(c, z, max) == max
  {
    FixedPointReachesCap(z, Quadratic(c), max);
  }

  lemma OriginInside()
    ensures !Escaped(Zero)
  {
  }

  lemma OneInside()
    ensures !Escaped(One)
  {
  }

  /** A plane point whose orbit from 0 settles, after m steps none of which
      escapes, on a fixed point of z -> z * z + c lies in the Mandelbrot set:
      its count is the cap, for every budget. */
  lemma MandelbrotFixedPoint(c: Complex, m: nat, max: int)
    requires max >= 0 && FixedAfter(Zero, Quadratic(c), m)
    ensures MandelbrotCount(c, max) == max
  {
    EventuallyFixedReachesCap(Zero, Quadratic(c), m, max);
    MandelbrotFromOrigin(c, max);
  }

  /** The origin belongs to the Mandelbrot set: its count is the cap. */
  lemma OriginReachesCap(max: int)
    requires max >= 0
    ensures MandelbrotCount(Zero, max) == max
  {
    OriginInside();
    QuadraticAtOrigin(Zero);
    FixedAtStart(Zero, Quadratic(Zero));
    MandelbrotFixedPoint(Zero, 0, max);
  }

  /** The root 1 is fixed by the Newton step, so its Fatou count is the cap. */
  lemma RootReachesCap(max: int)
    requires max >= 0
    ensures FatouCount(One, max) == max
  {
    NewtonFixesOne();
    OneInside();
    FixedPointReachesCap(One, NewtonStep, max);
  }

  // ---------------------------------------------------------------------------
  // Sections
  // ---------------------------------------------------------------------------

  /** The loop shared by the three *_section_jit functions: a height x sw array
      whose entry (i, j) is the count of global column k * sw + j, the orbit of
      plane point p starting at start(p) and applying stepAt(p). */
  method Section(start: Complex -> Complex, stepAt: Complex -> (Complex -> Complex),
                 k: int, sw: nat, width: int, height: nat, vp: Viewport, max: int)
    returns (counts: array2<int>)
    requires height > 0 && sw > 0 ==> width != 0
    ensures counts.Length0 == height && counts.Length1 == sw
    ensures forall i, j :: 0 <= i < height && 0 <= j < sw ==>
      var p := PixelPoint(vp, width, height, k * sw + j, i);
      counts[i, j] == EscapeTime(start(p), stepAt(p), max)
  {
    counts := new int[height, sw];
    var offset := k * sw;
    for i := 0 to height
      invariant forall a, b :: 0 <= a < i && 0 <= b < sw ==>
        var p := PixelPoint(vp, width, height, offset + b, a);
        counts[a, b] == EscapeTime(start(p), stepAt(p), max)
    {
      for j := 0 to sw
        invariant forall a, b :: 0 <= a < i && 0 <= b < sw ==>
          var p := PixelPoint(vp, width, height, offset + b, a);
          counts[a, b] == EscapeTime(start(p), stepAt(p), max)
        invariant forall b :: 0 <= b < j ==>
          var p := PixelPoint(vp, width, height, offset + b, i);
          counts[i, b] == EscapeTime(start(p), stepAt(p), max)
      {
        var globalX := offset + j;
        var p := PixelPoint(vp, width, height, globalX, i);
        var count, _ := EscapeCount(start(p), stepAt(p), max);
        counts[i, j] := count;
      }
    }
  }

  /** mandelbrot_section_jit. */
  method MandelbrotSection(k: int, sw: nat, width: int, height: nat, vp: Viewport, max: int)
    returns (counts: array2<int>)
    requires height > 0 && sw > 0 ==> width != 0
    ensures counts.Length0 == height && counts.Length1 == sw
    ensures forall i, j :: 0 <= i < height && 0 <= j < sw ==>
      counts[i, j] == MandelbrotCount(PixelPoint(vp, width, height, k * sw + j, i), max)
  {
    counts := Section(MandelbrotStart, Quadratic, k, sw, width, height, vp, max);
    forall i, j | 0 <= i < height && 0 <= j < sw
      ensures counts[i, j] == MandelbrotCount(PixelPoint(vp, width, height, k * sw + j, i), max)
    {
      MandelbrotFromOrigin(PixelPoint(vp, width, height, k * sw + j, i), max);
    }
  }

  /** julia_section_jit with constant c. */
  method JuliaSection(k: int, sw: nat, width: int, height: nat, vp: Viewport, max: int, c: Complex)
    returns (counts: array2<int>)
    requires height > 0 && sw > 0 ==> width != 0
    ensures counts.Length0 == height && counts.Length1 == sw
    ensures forall i, j :: 0 <= i < height && 0 <= j < sw ==>
      counts[i, j] == JuliaCount(c, PixelPoint(vp, width, height, k * sw + j, i), max)
  {
    counts := Section(OwnPoint, p => Quadratic(c), k, sw, width, height, vp, max);
  }

  /** fatou_section_jit. */
  method FatouSection(k: int, sw: nat, width: int, height: nat, vp: Viewport, max: int)
    returns (counts: array2<int>)
    requires height > 0 && sw > 0 ==> width != 0
    ensures counts.Length0 == height && counts.Length1 == sw
    ensures forall i, j :: 0 <= i < height && 0 <= j < sw ==>
      counts[i, j] == FatouCount(PixelPoint(vp, width, height, k * sw + j, i), max)
  {
    counts := Section(OwnPoint, p => NewtonStep, k, sw, width, height, vp, max);
  }

  // ---------------------------------------------------------------------------
  // MandelbrotCalculator: evaluation followed by colouring
  // ---------------------------------------------------------------------------

  /** What the three calculate_*_section methods share: the counts of Section
      coloured by apply_color_theme. */
  method ColoredSection(start: Complex -> Complex, stepAt: Complex -> (Complex -> Complex),
                        k: int, sw: nat, width: int, height: nat, vp: Viewport, max: int,
                        theme: string, hsv: real -> Themes.RealRgb)
    returns (colors: array2<Themes.Rgb>)
    requires height > 0 && sw > 0 ==> width != 0
    requires Themes.Colorable(Themes.ThemeOf(theme), max, hsv)
    ensures colors.Length0 == height && colors.Length1 == sw
    ensures forall i, j :: 0 <= i < height && 0 <= j < sw ==>
      var p := PixelPoint(vp, width, height, k * sw + j, i);
      colors[i, j] == Themes.PixelColor(Themes.ThemeOf(theme), EscapeTime(start(p), stepAt(p), max), max, hsv)
  {
    var iterations := Section(start, stepAt, k, sw, width, height, vp, max);
    colors := Themes.ApplyColorTheme(iterations, max, theme, hsv);
  }

  /** The colour of the Mandelbrot pixel whose plane point is c. */
  function MandelbrotColor(c: Complex, max: int, t: Themes.Theme, hsv: real -> Themes.RealRgb): Themes.Rgb
    requires Themes.Colorable(t, max, hsv)
  {
    Themes.PixelColor(t, MandelbrotCount(c, max), max, hsv)
  }

  /** The colour of the Julia pixel, constant c, whose plane point is z. */
  function JuliaColor(c: Complex, z: Complex, max: int, t: Themes.Theme, hsv: real -> Themes.RealRgb): Themes.Rgb
    requires Themes.Colorable(t, max, hsv)
  {
    Themes.PixelColor(t, JuliaCount(c, z, max), max, hsv)
  }

  /** The colour of the Fatou pixel whose plane point is z. */
  function FatouColor(z: Complex, max: int, t: Themes.Theme, hsv: real -> Themes.RealRgb): Themes.Rgb
    requires Themes.Colorable(t, max, hsv)
  {
    Themes.PixelColor(t, FatouCount(z, max), max, hsv)
  }

  /** Whatever the theme, the origin (in the Mandelbrot set) and the Newton
      root 1 are drawn black. */
  lemma FixedPointsAreBlack(max: int, t: Themes.Theme, hsv: real -> Themes.RealRgb)
    requires Themes.Colorable(t, max, hsv) && max >= 0
    ensures MandelbrotColor(Zero, max, t, hsv) == Themes.Black
    ensures FatouColor(One, max, t, hsv) == Themes.Black
  {
    OriginReachesCap(max);
    RootReachesCap(max);
    Themes.MaxIsBlack(t, max, hsv);
  }

  /** calculate_mandelbrot_section. */
  method CalculateMandelbrotSection(k: int, sw: nat, width: int, height: nat, vp: Viewport, max: int,
                                    theme: string, hsv: real -> Themes.RealRgb)
    returns (colors: array2<Themes.Rgb>)
    requires height > 0 && sw > 0 ==> width != 0
    requires Themes.Colorable(Themes.ThemeOf(theme), max, hsv)
    ensures colors.Length0 == height && colors.Length1 == sw
    ensures forall i, j :: 0 <= i < height && 0 <= j < sw ==>
      colors[i, j] == MandelbrotColor(PixelPoint(vp, width, height, k * sw + j, i), max, Themes.ThemeOf(theme), hsv)
  {
    colors := ColoredSection(MandelbrotStart, Quadratic, k, sw, width, height, vp, max, theme, hsv);
    forall i, j | 0 <= i < height && 0 <= j < sw
      ensures colors[i, j] == MandelbrotColor(PixelPoint(vp, width, height, k * sw + j, i), max, Themes.ThemeOf(theme), hsv)
    {
      MandelbrotFromOrigin(PixelPoint(vp, width, height, k * sw + j, i), max);
    }
  }

  /** calculate_julia_section with constant c. */
  method CalculateJuliaSection(k: int, sw: nat, width: int, height: nat, vp: Viewport, max: int,
                               theme: string, c: Complex, hsv: real -> Themes.RealRgb)
    returns (colors: array2<Themes.Rgb>)
    requires height > 0 && sw > 0 ==> width != 0
    requires Themes.Colorable(Themes.ThemeOf(theme), max, hsv)
    ensures colors.Length0 == height && colors.Length1 == sw
    ensures forall i, j :: 0 <= i < height && 0 <= j < sw ==>
      colors[i, j] == JuliaColor(c, PixelPoint(vp, width, height, k * sw + j, i), max, Themes.ThemeOf(theme), hsv)
  {
    colors := ColoredSection(OwnPoint, p => Quadratic(c), k, sw, width, height, vp, max, theme, hsv);
  }

  /** calculate_fatou_section. */
  method CalculateFatouSection(k: int, sw: nat, width: int, height: nat, vp: Viewport, max: int,
                               theme: string, hsv: real -> Themes.RealRgb)
    returns (colors: array2<Themes.Rgb>)
    requires height > 0 && sw > 0 ==> width != 0
    requires Themes.Colorable(Themes.ThemeOf(theme), max, hsv)
    ensures colors.Length0 == height && colors.Length1 == sw
    ensures forall i, j :: 0 <= i < height && 0 <= j < sw ==>
      colors[i, j] == FatouColor(PixelPoint(vp, width, height, k * sw + j, i), max, Themes.ThemeOf(theme), hsv)
  {
    colors := ColoredSection(OwnPoint, p => NewtonStep, k, sw, width, height, vp, max, theme, hsv);
  }
}
