/** The viewer's own logic: how draw_mandelbrot splits the image into column
    sections and joins them again, the theme menu and its cycling, and the
    viewport state that zooming, panning and resetting change. */
module Frontier {
  import Themes
  import Fractals
  import opened Arith

  // ---------------------------------------------------------------------------
  // Section scheduling (draw_mandelbrot)
  // ---------------------------------------------------------------------------

  predicate PowerOfTwo(n: int)
    decreases n
  {
    n == 1 || (n > 1 && n % 2 == 0 && PowerOfTwo(n / 2))
  }

  /** 2 ** floor(log2(cores)): the largest power of two not above the core count. */
  function NumSections(cores: int): (n: nat)
    requires cores >= 1
    ensures PowerOfTwo(n) && n <= cores < 2 * n
  {
    if cores == 1 then 1 else 2 * NumSections(cores / 2)
  }

  /** Of two different powers of two the larger is at least twice the smaller. */
  lemma {:induction false} PowerOfTwoGap(p: int, q: int)
    requires PowerOfTwo(p) && PowerOfTwo(q) && p < q
    ensures 2 * p <= q
    decreases q
  {
    if p > 1 {
      PowerOfTwoGap(p / 2, q / 2);
    }
  }

  /** The section count is the only power of two in (cores / 2, cores]. */
  lemma NumSectionsUnique(cores: int, p: int)
    requires cores >= 1 && PowerOfTwo(p) && p <= cores < 2 * p
    ensures p == NumSections(cores)
  {
    var n := NumSections(cores);
    if p < n {
      PowerOfTwoGap(p, n);
    } else if n < p {
      PowerOfTwoGap(n, p);
    }
  }

  /** width // num_sections. */
  function SectionWidth(width: nat, n: nat): (sw: nat)
    requires n >= 1
    ensures n * sw <= width < n * sw + n
  {
    width / n
  }

  /** Width of the concatenated image: the remainder columns are dropped,
      and there are fewer of them than sections. */
  function ImageWidth(cores: int, width: nat): (w: nat)
    requires cores >= 1
    ensures w <= width < w + NumSections(cores)
    ensures w % NumSections(cores) == 0
  {
    var n := NumSections(cores);
    var sw := SectionWidth(width, n);
    DivModUnique(n * sw, n, sw, 0);
    n * sw
  }

  /** The section that holds global column gx when n sections of width sw
      are laid side by side. */
  function SectionIndex(gx: int, sw: nat, n: nat): (k: nat)
    requires 0 <= gx < n * sw
    ensures k < n && k * sw <= gx < k * sw + sw
  {
    QuotientBelow(gx, sw, n);
    gx / sw
  }

  lemma QuotientBelow(gx: int, sw: nat, n: nat)
    requires 0 <= gx < n * sw
    ensures sw > 0 && 0 <= gx / sw < n
  {
    if gx / sw >= n {
      MulMono(n, gx / sw, sw);
      assert false;
    }
  }

  /** Each column is covered by exactly one section. */
  lemma SectionIndexUnique(gx: int, sw: nat, n: nat, k: int)
    requires 0 <= k < n && k * sw <= gx < k * sw + sw
    ensures gx < n * sw
    ensures SectionIndex(gx, sw, n) == k
  {
    MulMono(k + 1, n, sw);
    DivModUnique(gx, sw, k, gx - k * sw);
  }

  /** One entry of the task list handed to the worker pool. */
  datatype Task = Task(index: nat, sectionWidth: nat, width: nat, height: nat,
                       view: Fractals.Viewport, maxIterations: int, theme: string)

  /** The list comprehension over range(num_sections). */
  function Tasks(n: nat, sw: nat, width: nat, height: nat, vp: Fractals.Viewport,
                 max: int, theme: string): seq<Task>
  {
    seq(n, (k: int) requires 0 <= k => Task(k, sw, width, height, vp, max, theme))
  }

  /** np.hstack: the sections side by side, in list order. */
  method HStack(sections: seq<array2<Themes.Rgb>>, height: nat, sw: nat)
    returns (image: array2<Themes.Rgb>)
    requires forall k :: 0 <= k < |sections| ==> sections[k].Length0 == height && sections[k].Length1 == sw
    ensures image.Length0 == height && image.Length1 == |sections| * sw
    ensures forall i, gx :: 0 <= i < height && 0 <= gx < |sections| * sw ==>
      var k := SectionIndex(gx, sw, |sections|);
      image[i, gx] == sections[k][i, gx - k * sw]
  {
    var n := |sections|;
    image := new Themes.Rgb[height, n * sw];
    for i := 0 to height
      invariant forall i', g :: 0 <= i' < i && 0 <= g < n * sw ==>
        var k := SectionIndex(g, sw, n);
        image[i', g] == sections[k][i', g - k * sw]
    {
      for gx := 0 to n * sw
        invariant forall i', g :: 0 <= i' < i && 0 <= g < n * sw ==>
          var k := SectionIndex(g, sw, n);
          image[i', g] == sections[k][i', g - k * sw]
        invariant forall g :: 0 <= g < gx ==>
          var k := SectionIndex(g, sw, n);
          image[i, g] == sections[k][i, g - k * sw]
      {
        var k := SectionIndex(gx, sw, n);
        image[i, gx] := sections[k][i, gx - k * sw];
      }
    }
  }

  /** The rendering half of draw_mandelbrot: one Mandelbrot task per section,
      evaluated in order, then joined. Every column of the result is the
      colour of its own plane point, exactly as a single-section render. */
  method DrawSections(cores: int, width: nat, height: nat, vp: Fractals.Viewport, max: int,
                      theme: string, hsv: real -> Themes.RealRgb)
    returns (image: array2<Themes.Rgb>)
    requires cores >= 1
    requires Themes.Colorable(Themes.ThemeOf(theme), max, hsv)
    ensures image.Length0 == height && image.Length1 == ImageWidth(cores, width)
    ensures forall i, gx :: 0 <= i < height && 0 <= gx < ImageWidth(cores, width) ==>
      width != 0 &&
      image[i, gx] == Fractals.MandelbrotColor(Fractals.PixelPoint(vp, width, height, gx, i),
                                               max, Themes.ThemeOf(theme), hsv)
  {
    var n := NumSections(cores);
    var sw := SectionWidth(width, n);
    MulMono(1, n, sw);
    var tasks := Tasks(n, sw, width, height, vp, max, theme);
    var sections: seq<array2<Themes.Rgb>> := [];
    for k := 0 to n
      invariant |sections| == k
      invariant forall k' :: 0 <= k' < k ==>
        sections[k'].Length0 == height && sections[k'].Length1 == sw &&
        forall i, j :: 0 <= i < height && 0 <= j < sw ==>
          sections[k'][i, j] == Fractals.MandelbrotColor(Fractals.PixelPoint(vp, width, height, k' * sw + j, i),
                                                         max, Themes.ThemeOf(theme), hsv)
    {
      var t := tasks[k];
      var s := Fractals.CalculateMandelbrotSection(t.index, t.sectionWidth, t.width, t.height, t.view,
                                                   t.maxIterations, t.theme, hsv);
      sections := sections + [s];
    }
    image := HStack(sections, height, sw);
  }

  // ---------------------------------------------------------------------------
  // Theme menu and advance_theme
  // ---------------------------------------------------------------------------

  /** No entry of s occurs twice. */
  predicate Distinct(s: seq<string>) {
    forall i, j :: 0 <= i < j < |s| ==> s[i] != s[j]
  }

  /** list.index: the first position of x. */
  function IndexOf(s: seq<string>, x: string): (i: nat)
    requires x in s
    ensures i < |s| && s[i] == x
    ensures forall j :: 0 <= j < i ==> s[j] != x
  {
    if s[0] == x then 0 else 1 + IndexOf(s[1..], x)
  }

  /** In a list without repeats, position lookup inverts indexing. */
  lemma IndexOfAt(s: seq<string>, k: int)
    requires Distinct(s) && 0 <= k < |s|
    ensures IndexOf(s, s[k]) == k
  {
  }

  /** The entry after x, wrapping from the last to the first. */
  function Next(s: seq<string>, x: string): (r: string)
    requires x in s
    ensures r in s
  {
    s[(IndexOf(s, x) + 1) % |s|]
  }

  /** k steps of Next. */
  function Advance(s: seq<string>, x: string, k: nat): (r: string)
    requires x in s
    ensures r in s
    decreases k
  {
    if k == 0 then x else Advance(s, Next(s, x), k - 1)
  }

  /** After k steps the position has advanced by k, modulo the length. */
  lemma {:induction false} AdvanceIndex(s: seq<string>, x: string, k: nat)
    requires Distinct(s) && x in s
    ensures IndexOf(s, Advance(s, x, k)) == (IndexOf(s, x) + k) % |s|
    decreases k
  {
    var i := IndexOf(s, x);
    if k == 0 {
      DivModUnique(i, |s|, 0, i);
    } else {
      var j := (i + 1) % |s|;
      IndexOfAt(s, j);
      AdvanceIndex(s, Next(s, x), k - 1);
      ModShift(i + 1, k - 1, |s|);
    }
  }

  /** |s| steps come back to the start. */
  lemma AdvanceCycle(s: seq<string>, x: string)
    requires Distinct(s) && x in s
    ensures Advance(s, x, |s|) == x
  {
    var i := IndexOf(s, x);
    AdvanceIndex(s, x, |s|);
    DivModUnique(i + |s|, |s|, 1, i);
  }

  /** Every entry is reached in fewer than |s| steps. */
  lemma AdvanceReaches(s: seq<string>, x: string, y: string)
    requires Distinct(s) && x in s && y in s
    ensures exists k :: 0 <= k < |s| && Advance(s, x, k) == y
  {
    var i, j := IndexOf(s, x), IndexOf(s, y);
    var k := (j - i) % |s|;
    AdvanceIndex(s, x, k);
    ModShift(j - i, i, |s|);
    DivModUnique(j, |s|, 0, j);
    assert IndexOf(s, Advance(s, x, k)) == j;
  }

  /** In a list of two or more distinct entries, Next always moves. */
  lemma NextMoves(s: seq<string>, x: string)
    requires Distinct(s) && 2 <= |s| && x in s
    ensures Next(s, x) != x
  {
    var i := IndexOf(s, x);
    var j := (i + 1) % |s|;
    if i + 1 < |s| {
      DivModUnique(i + 1, |s|, 0, i + 1);
    } else {
      DivModUnique(i + 1, |s|, 1, 0);
    }
    assert s[i] == x && s[j] == Next(s, x) && i != j;
  }

  /** The entries of the theme menu, in menu order. */
  const ThemeNames: seq<string> := ["Default", "Grayscale", "Blue", "Fire", "Rainbow", "Rainbow2", "Rainbow3", "Rainbow4"]

  /** The menu lists each dispatch key once and nothing else, so each entry
      selects a different theme. */
  lemma ThemeNamesAreKeys()
    ensures |ThemeNames| == 8 && Distinct(ThemeNames)
    ensures forall t: Themes.Theme :: Themes.Name(t) in ThemeNames
    ensures forall i :: 0 <= i < |ThemeNames| ==> Themes.Name(Themes.ThemeOf(ThemeNames[i])) == ThemeNames[i]
  {
  }

  /** advance_theme's choice of the next theme. */
  function NextTheme(name: string): (r: string)
    requires name in ThemeNames
    ensures r in ThemeNames
  {
    Next(ThemeNames, name)
  }

  /** advance_theme moves one place along the menu, modulo its length. */
  lemma NextThemeIndex(name: string)
    requires name in ThemeNames
    ensures IndexOf(ThemeNames, NextTheme(name)) == (IndexOf(ThemeNames, name) + 1) % 8
  {
    ThemeNamesAreKeys();
    IndexOfAt(ThemeNames, (IndexOf(ThemeNames, name) + 1) % |ThemeNames|);
  }

  /** Every advance changes the theme that colours the image. */
  lemma NextThemeDiffers(name: string)
    requires name in ThemeNames
    ensures Themes.ThemeOf(NextTheme(name)) != Themes.ThemeOf(name)
  {
    ThemeNamesAreKeys();
    NextMoves(ThemeNames, name);
    var i, j := IndexOf(ThemeNames, name), IndexOf(ThemeNames, NextTheme(name));
    assert Themes.Name(Themes.ThemeOf(ThemeNames[i])) == ThemeNames[i];
    assert Themes.Name(Themes.ThemeOf(ThemeNames[j])) == ThemeNames[j];
  }

  /** Eight presses of the advance key come back to the starting theme. */
  lemma ThemeCycle(name: string)
    requires name in ThemeNames
    ensures Advance(ThemeNames, name, 8) == name
  {
    ThemeNamesAreKeys();
    AdvanceCycle(ThemeNames, name);
  }

  /** Every theme is reached within fewer than eight presses. */
  lemma EveryThemeReached(name: string, t: Themes.Theme)
    requires name in ThemeNames
    ensures exists k :: 0 <= k < 8 && Themes.ThemeOf(Advance(ThemeNames, name, k)) == t
  {
    ThemeNamesAreKeys();
    AdvanceReaches(ThemeNames, name, Themes.Name(t));
    var k :| 0 <= k < 8 && Advance(ThemeNames, name, k) == Themes.Name(t);
    Themes.ThemeOfName(t);
  }

  // ---------------------------------------------------------------------------
  // Viewport updates
  // ---------------------------------------------------------------------------

  /** The event that triggered a zoom: a key press (Tk event type "2") or a
      pointer event at canvas position (x, y). */
  datatype Event = KeyPress | Pointer(x: int, y: int)

  /** The point zoom scales about: the view centre for a key press, the
      plane point under the pointer otherwise. */
  function ZoomCentre(vp: Fractals.Viewport, width: int, height: int, event: Event): Fractals.Complex
    requires width != 0 && height != 0
  {
    if event.KeyPress? then
      Fractals.Complex((vp.xMin + vp.xMax) / 2.0, (vp.yMin + vp.yMax) / 2.0)
    else
      Fractals.Complex(vp.xMin + (event.x as real / width as real) * (vp.xMax - vp.xMin),
                       vp.yMin + (event.y as real / height as real) * (vp.yMax - vp.yMin))
  }

  /** The viewport zoom computes: both extents scaled by factor about the
      zoom centre. */
  function ZoomView(vp: Fractals.Viewport, width: int, height: int, event: Event, factor: real): Fractals.Viewport
    requires width != 0 && height != 0
  {
    var c := ZoomCentre(vp, width, height, event);
    var newWidth := (vp.xMax - vp.xMin) * factor;
    var newHeight := (vp.yMax - vp.yMin) * factor;
    Fractals.Viewport(c.re - newWidth / 2.0, c.re + newWidth / 2.0, c.im - newHeight / 2.0, c.im + newHeight / 2.0)
  }

  /** Zooming scales both extents by the factor and centres the new view on
      the zoom centre. */
  lemma ZoomScales(vp: Fractals.Viewport, width: int, height: int, event: Event, factor: real)
    requires width != 0 && height != 0
    ensures var z := ZoomView(vp, width, height, event, factor);
      z.xMax - z.xMin == (vp.xMax - vp.xMin) * factor && z.yMax - z.yMin == (vp.yMax - vp.yMin) * factor
    ensures var z := ZoomView(vp, width, height, event, factor);
      var c := ZoomCentre(vp, width, height, event);
      (z.xMin + z.xMax) / 2.0 == c.re && (z.yMin + z.yMax) / 2.0 == c.im
  {
  }

  /** Scaling a positive extent by a factor below 1 shrinks it, by a factor
      above 1 grows it. */
  lemma ScaleCompare(w: real, f: real)
    requires w > 0.0
    ensures f < 1.0 <==> w * f < w
    ensures f > 1.0 <==> w * f > w
  {
    if f < 1.0 {
      ScaledPositive(w, 1.0 - f);
      assert w * (1.0 - f) == w - w * f;
    } else if f > 1.0 {
      ScaledPositive(w, f - 1.0);
      assert w * (f - 1.0) == w * f - w;
    }
  }

  /** Zooming by a positive factor keeps a proper view proper. */
  lemma ZoomKeepsProper(vp: Fractals.Viewport, width: int, height: int, event: Event, factor: real)
    requires width != 0 && height != 0 && factor > 0.0
    requires vp.xMin < vp.xMax && vp.yMin < vp.yMax
    ensures var z := ZoomView(vp, width, height, event, factor);
      z.xMin < z.xMax && z.yMin < z.yMax
  {
    var z := ZoomView(vp, width, height, event, factor);
    var w, h := vp.xMax - vp.xMin, vp.yMax - vp.yMin;
    ZoomScales(vp, width, height, event, factor);
    assert z.xMax - z.xMin == w * factor && z.yMax - z.yMin == h * factor;
    ScaledPositive(w, factor);
    ScaledPositive(h, factor);
  }

  /** A key-press zoom keeps the centre of the view. */
  lemma ZoomKeepsCentre(vp: Fractals.Viewport, width: int, height: int, factor: real)
    requires width != 0 && height != 0
    ensures var z := ZoomView(vp, width, height, KeyPress, factor);
      z.xMin + z.xMax == vp.xMin + vp.xMax && z.yMin + z.yMax == vp.yMin + vp.yMax
  {
    ZoomScales(vp, width, height, KeyPress, factor);
  }

  /** A pointer zoom centres the new view on the plane point that the
      section evaluators give the pixel under the pointer. */
  lemma ZoomCentresPointer(vp: Fractals.Viewport, width: int, height: int, x: int, y: int, factor: real)
    requires width != 0 && height != 0
    ensures var z := ZoomView(vp, width, height, Pointer(x, y), factor);
      var p := Fractals.PixelPoint(vp, width, height, x, y);
      (z.xMin + z.xMax) / 2.0 == p.re && (z.yMin + z.yMax) / 2.0 == p.im
  {
    ZoomScales(vp, width, height, Pointer(x, y), factor);
    DivideLater(x as real, vp.xMax - vp.xMin, width as real);
    DivideLater(y as real, vp.yMax - vp.yMin, height as real);
  }

  /** A key-press zoom by 1/factor undoes one by factor. */
  lemma ZoomInverse(vp: Fractals.Viewport, width: int, height: int, factor: real)
    requires width != 0 && height != 0 && factor > 0.0
    ensures ZoomView(ZoomView(vp, width, height, KeyPress, factor), width, height, KeyPress, 1.0 / factor) == vp
  {
    var z := ZoomView(vp, width, height, KeyPress, factor);
    ZoomScales(vp, width, height, KeyPress, factor);
    ZoomScales(z, width, height, KeyPress, 1.0 / factor);
    var w, h := vp.xMax - vp.xMin, vp.yMax - vp.yMin;
    assert (w * factor) * (1.0 / factor) == w;
    assert (h * factor) * (1.0 / factor) == h;
  }

  /** One move_* step as the source writes it: the low bound moves by d times
      the extent, then the high bound by d times the extent measured from the
      already-moved low bound. */
  function Pan(lo: real, hi: real, d: real): (real, real) {
    var lo' := lo + d * (hi - lo);
    (lo', hi + d * (hi - lo'))
  }

  /** The low bound shifts by d of the old extent, and the extent shrinks to
      (1 - d * d) of itself; for the ±10% steps that is 0.99. */
  lemma PanEffect(lo: real, hi: real, d: real)
    ensures Pan(lo, hi, d).0 == lo + d * (hi - lo)
    ensures Pan(lo, hi, d).1 - Pan(lo, hi, d).0 == (1.0 - d * d) * (hi - lo)
    ensures d * d == 0.01 ==> Pan(lo, hi, d).1 - Pan(lo, hi, d).0 == 0.99 * (hi - lo)
  {
    var e := hi - lo;
    assert hi - (lo + d * e) == (1.0 - d) * e;
    assert d * ((1.0 - d) * e) == (d - d * d) * e;
  }

  const HomeView := Fractals.Viewport(-2.0, 1.0, -1.5, 1.5)

  /** The viewer state behind the window: view bounds, canvas size, theme and
      the iteration settings that draw_mandelbrot derives from them. */
  class Viewer {
    var xMin: real
    var xMax: real
    var yMin: real
    var yMax: real
    var width: int
    var height: int
    var zoomLevel: real
    var isZooming: bool
    var colorTheme: string
    var autoAdjust: bool
    var autoIterations: int
    var iterationOffset: int
    var maxIterations: int
    /** The extent of the starting view, against which zoom levels are measured. */
    const baseRange: real
    /** multiprocessing.cpu_count(). */
    const numCores: int
    /** The automatic iteration budget for a zoom level (a float formula). */
    const autoIterationsAt: real -> int

    function View(): Fractals.Viewport
      reads this`xMin, this`xMax, this`yMin, this`yMax
    {
      Fractals.Viewport(xMin, xMax, yMin, yMax)
    }

    /** What holds after every completed draw; the zooming flag plays no part. */
    ghost predicate Valid()
      reads this`xMin, this`xMax, this`yMin, this`yMax, this`width, this`height, this`colorTheme
      reads this`zoomLevel, this`autoAdjust, this`autoIterations, this`iterationOffset, this`maxIterations
    {
      xMin < xMax && yMin < yMax && 0 < width && 0 < height && numCores >= 1 && baseRange == 3.0
      && colorTheme in ThemeNames
      && zoomLevel == baseRange / (xMax - xMin)
      && maxIterations == autoIterations + iterationOffset
      && (autoAdjust ==> autoIterations == autoIterationsAt(zoomLevel))
    }

    /** __init__, ending with its first draw_mandelbrot. */
    constructor (numCores: int, autoIterationsAt: real -> int)
      requires numCores >= 1
      ensures Valid()
      ensures View() == HomeView && width == 160 && height == 120 && zoomLevel == 1.0
      ensures colorTheme == "Default" && autoAdjust && iterationOffset == 0 && !isZooming
      ensures this.numCores == numCores && this.autoIterationsAt == autoIterationsAt
    {
      width := 160;
      height := 120;
      maxIterations := 100;
      xMin, xMax, yMin, yMax := -2.0, 1.0, -1.5, 1.5;
      baseRange := 3.0;
      iterationOffset := 0;
      autoIterations := 50;
      colorTheme := "Default";
      autoAdjust := true;
      isZooming := false;
      zoomLevel := 1.0;
      this.numCores := numCores;
      this.autoIterationsAt := autoIterationsAt;
      new;
      DrawMandelbrot();
    }

    /** The state half of draw_mandelbrot: zoom level, automatic budget and
        the iteration count used for the next render. */
    method DrawMandelbrot()
      requires xMin < xMax
      modifies this`zoomLevel, this`autoIterations, this`maxIterations
      ensures zoomLevel == baseRange / (xMax - xMin)
      ensures autoIterations == if autoAdjust then autoIterationsAt(zoomLevel) else old(autoIterations)
      ensures maxIterations == autoIterations + iterationOffset
    {
      var currentRange := xMax - xMin;
      zoomLevel := baseRange / currentRange;
      if autoAdjust {
        autoIterations := autoIterationsAt(zoomLevel);
      }
      maxIterations := autoIterations + iterationOffset;
    }

    /** The image the current state draws. */
    method Render(hsv: real -> Themes.RealRgb) returns (image: array2<Themes.Rgb>)
      requires Valid()
      requires Themes.Colorable(Themes.ThemeOf(colorTheme), maxIterations, hsv)
      ensures image.Length0 == height && image.Length1 == ImageWidth(numCores, width)
      ensures forall i, gx :: 0 <= i < height && 0 <= gx < ImageWidth(numCores, width) ==>
        image[i, gx] == Fractals.MandelbrotColor(Fractals.PixelPoint(View(), width, height, gx, i),
                                                 maxIterations, Themes.ThemeOf(colorTheme), hsv)
    {
      image := DrawSections(numCores, width, height, View(), maxIterations, colorTheme, hsv);
    }

    /** zoom's first guard: no zooming out by 2 or more once the zoom level is
        at most 0.26. */
    static predicate ZoomBlocked(zoomLevel: real, factor: real) {
      zoomLevel <= 0.26 && factor >= 2.0
    }

    method Zoom(event: Event, factor: real)
      requires Valid() && factor > 0.0
      modifies this`xMin, this`xMax, this`yMin, this`yMax, this`isZooming
      modifies this`zoomLevel, this`autoIterations, this`maxIterations
      ensures Valid()
      ensures !autoAdjust ==> autoIterations == old(autoIterations)
      ensures isZooming == (old(isZooming) && !ZoomBlocked(old(zoomLevel), factor))
      ensures ZoomBlocked(old(zoomLevel), factor) || old(isZooming) ==> View() == old(View())
      ensures !ZoomBlocked(old(zoomLevel), factor) && !old(isZooming) ==>
        View() == ZoomView(old(View()), width, height, event, factor)
    {
      if zoomLevel <= 0.26 && factor >= 2.0 {
        isZooming := false;
        return;
      }
      if isZooming {
        return;
      }
      isZooming := true;
      var v := ZoomView(View(), width, height, event, factor);
      assert v == ZoomView(old(View()), width, height, event, factor);
      ZoomKeepsProper(View(), width, height, event, factor);
      SetView(v);
      isZooming := false;
    }

    /** Installs new bounds and redraws, as the end of zoom does. */
    method SetView(v: Fractals.Viewport)
      requires Valid() && v.xMin < v.xMax && v.yMin < v.yMax
      modifies this`xMin, this`xMax, this`yMin, this`yMax, this`zoomLevel, this`autoIterations, this`maxIterations
      ensures Valid() && View() == v
      ensures !autoAdjust ==> autoIterations == old(autoIterations)
    {
      xMin, xMax, yMin, yMax := v.xMin, v.xMax, v.yMin, v.yMax;
      DrawMandelbrot();
    }

    method MoveDown()
      requires Valid()
      modifies this`yMin, this`yMax, this`zoomLevel, this`autoIterations, this`maxIterations
      ensures Valid()
      ensures !autoAdjust ==> autoIterations == old(autoIterations)
      ensures (yMin, yMax) == Pan(old(yMin), old(yMax), 0.1) && zoomLevel == old(zoomLevel)
    {
      yMin := yMin + 0.1 * (yMax - yMin);
      yMax := yMax + 0.1 * (yMax - yMin);
      PanEffect(old(yMin), old(yMax), 0.1);
      DrawMandelbrot();
    }

    method MoveUp()
      requires Valid()
      modifies this`yMin, this`yMax, this`zoomLevel, this`autoIterations, this`maxIterations
      ensures Valid()
      ensures !autoAdjust ==> autoIterations == old(autoIterations)
      ensures (yMin, yMax) == Pan(old(yMin), old(yMax), -0.1) && zoomLevel == old(zoomLevel)
    {
      yMin := yMin - 0.1 * (yMax - yMin);
      yMax := yMax - 0.1 * (yMax - yMin);
      PanEffect(old(yMin), old(yMax), -0.1);
      DrawMandelbrot();
    }

    method MoveLeft()
      requires Valid()
      modifies this`xMin, this`xMax, this`zoomLevel, this`autoIterations, this`maxIterations
      ensures Valid()
      ensures !autoAdjust ==> autoIterations == old(autoIterations)
      ensures (xMin, xMax) == Pan(old(xMin), old(xMax), -0.1)
    {
      xMin := xMin - 0.1 * (xMax - xMin);
      xMax := xMax - 0.1 * (xMax - xMin);
      PanEffect(old(xMin), old(xMax), -0.1);
      DrawMandelbrot();
    }

    method MoveRight()
      requires Valid()
      modifies this`xMin, this`xMax, this`zoomLevel, this`autoIterations, this`maxIterations
      ensures Valid()
      ensures !autoAdjust ==> autoIterations == old(autoIterations)
      ensures (xMin, xMax) == Pan(old(xMin), old(xMax), 0.1)
    {
      xMin := xMin + 0.1 * (xMax - xMin);
      xMax := xMax + 0.1 * (xMax - xMin);
      PanEffect(old(xMin), old(xMax), 0.1);
      DrawMandelbrot();
    }

    /** reset_view; setting the offset slider to 0 runs its callback, which
        clears the iteration offset. */
    method ResetView()
      requires Valid()
      modifies this`xMin, this`xMax, this`yMin, this`yMax, this`colorTheme, this`autoAdjust
      modifies this`iterationOffset, this`zoomLevel, this`autoIterations, this`maxIterations
      ensures Valid()
      ensures View() == HomeView && zoomLevel == 1.0
      ensures colorTheme == "Default" && autoAdjust && iterationOffset == 0
    {
      xMin := -2.0;
      xMax := 1.0;
      yMin := -1.5;
      yMax := 1.5;
      iterationOffset := 0;
      colorTheme := "Default";
      autoAdjust := true;
      DrawMandelbrot();
    }

    /** The offset slider's callback. */
    method SliderUpdate(value: int)
      requires Valid()
      modifies this`iterationOffset, this`zoomLevel, this`autoIterations, this`maxIterations
      ensures Valid()
      ensures !autoAdjust ==> autoIterations == old(autoIterations)
      ensures iterationOffset == value && zoomLevel == old(zoomLevel)
    {
      iterationOffset := value;
      DrawMandelbrot();
    }

    /** The theme menu's callback; the menu offers only ThemeNames. */
    method ThemeChanged(value: string)
      requires Valid() && value in ThemeNames
      modifies this`colorTheme, this`zoomLevel, this`autoIterations, this`maxIterations
      ensures Valid()
      ensures !autoAdjust ==> autoIterations == old(autoIterations)
      ensures colorTheme == value && zoomLevel == old(zoomLevel)
    {
      colorTheme := value;
      DrawMandelbrot();
    }

    method AdvanceTheme()
      requires Valid()
      modifies this`colorTheme, this`zoomLevel, this`autoIterations, this`maxIterations
      ensures Valid()
      ensures !autoAdjust ==> autoIterations == old(autoIterations)
      ensures colorTheme == NextTheme(old(colorTheme)) && zoomLevel == old(zoomLevel)
    {
      var themes := ThemeNames;
      var currentIndex := IndexOf(themes, colorTheme);
      var nextIndex := (currentIndex + 1) % |themes|;
      var nextTheme := themes[nextIndex];
      ThemeChanged(nextTheme);
    }
  }
}
