/** Colour themes: the mapping from a grid of escape counts to a grid of RGB
    bytes, one named theme at a time (themes.py, apply_color_theme). */
module Themes {
  import opened Arith

  /** An unsigned 8-bit channel value, the element type of the colour buffer. */
  type Byte = x: int | 0 <= x < 256

  datatype Rgb = Rgb(r: Byte, g: Byte, b: Byte)

  const Black := Rgb(0, 0, 0)

  /** Three floating-point channels, as returned by an HSV-to-RGB conversion. */
  datatype RealRgb = RealRgb(r: real, g: real, b: real)

  predicate UnitRgb(c: RealRgb) {
    0.0 <= c.r <= 1.0 && 0.0 <= c.g <= 1.0 && 0.0 <= c.b <= 1.0
  }

  /** The HSV conversion at full saturation and value yields channels in [0, 1]
      for every hue in [0, 1). */
  ghost predicate HsvUnit(hsv: real -> RealRgb) {
    forall h :: 0.0 <= h < 1.0 ==> UnitRgb(hsv(h))
  }

  /** The closed set of themes that the name lookup can select. */
  datatype Theme = Default | Grayscale | Blue | Fire | Rainbow | Rainbow2 | Rainbow3 | Rainbow4
  {
    /** The four themes computed from the normalised count rather than a palette. */
    predicate Normalized() {
      Default? || Grayscale? || Blue? || Fire?
    }
  }

  /** The key under which each theme is registered in the lookup table. */
  function Name(t: Theme): string {
    match t
    case Default => "Default"
    case Grayscale => "Grayscale"
    case Blue => "Blue"
    case Fire => "Fire"
    case Rainbow => "Rainbow"
    case Rainbow2 => "Rainbow2"
    case Rainbow3 => "Rainbow3"
    case Rainbow4 => "Rainbow4"
  }

  /** Exact-match lookup of a theme name; any other name selects Default. */
  function ThemeOf(name: string): (t: Theme)
    ensures Name(t) == name || (t == Default && forall u: Theme :: Name(u) != name)
  {
    if name == "Default" then Default
    else if name == "Grayscale" then Grayscale
    else if name == "Blue" then Blue
    else if name == "Fire" then Fire
    else if name == "Rainbow" then Rainbow
    else if name == "Rainbow2" then Rainbow2
    else if name == "Rainbow3" then Rainbow3
    else if name == "Rainbow4" then Rainbow4
    else Default
  }

  /** Looking a theme up under its own name finds that theme. */
  lemma ThemeOfName(t: Theme)
    ensures ThemeOf(Name(t)) == t
  {
  }

  /** A name that is not one of the eight keys behaves exactly like "Default". */
  lemma UnknownNameIsDefault(name: string)
    requires forall t: Theme :: Name(t) != name
    ensures ThemeOf(name) == ThemeOf("Default") == Default
  {
  }

  // ---------------------------------------------------------------------------
  // Normalisation and the four formula themes
  // ---------------------------------------------------------------------------

  lemma NormalizeBound(count: int, max: int)
    requires 0 < max && 0 <= count <= max
    ensures 0 <= count * 255 / max <= 255
    ensures count * 255 / max == 255 <==> count == max
  {
    var m, q := count * 255, count * 255 / max;
    assert m == q * max + m % max && 0 <= m % max < max;
    MulMono(count, max, 255);
    if count == max {
      DivModUnique(m, max, 255, 0);
    } else {
      MulMono(count, max - 1, 255);
      if q >= 255 {
        MulMono(255, q, max);
        assert false;
      }
    }
    if q < 0 {
      MulMono(q, -1, max);
      assert false;
    }
  }

  /** The normalised value count * 255 / max, truncated to a byte. */
  function Normalize(count: int, max: int): (n: Byte)
    requires 0 < max && 0 <= count <= max
    ensures n * max <= count * 255 < (n + 1) * max
    ensures n == 255 <==> count == max
  {
    NormalizeBound(count, max);
    count * 255 / max
  }

  /** Unsigned 8-bit arithmetic: the result of a NumPy uint8 operation. */
  function Wrap8(x: int): Byte {
    x % 256
  }

  /** np.clip on integers. */
  function Clip(x: int, lo: int, hi: int): (r: int)
    requires lo <= hi
    ensures lo <= r <= hi
    ensures lo <= x <= hi ==> r == x
  {
    if x < lo then lo else if x > hi then hi else x
  }

  /** The colour a formula theme gives a pixel with normalised value n. */
  function FormulaColor(t: Theme, n: Byte): Rgb
    requires t.Normalized()
  {
    match t
    case Default => Rgb(n, 255 - n, 100)
    case Grayscale => Rgb(n, n, n)
    case Blue => Rgb(255 - n, 255 - n, n)
    case Fire => Rgb(Clip(Wrap8(n * 2), 0, 255), Clip(Wrap8(n + 50), 0, 255), Clip(Wrap8(n - 100), 0, 255))
  }

  // ---------------------------------------------------------------------------
  // The four palette themes
  // ---------------------------------------------------------------------------

  /** Number of palette entries of a palette theme. */
  function PaletteSize(t: Theme): (p: nat)
    requires !t.Normalized()
    ensures p > 0
  {
    match t
    case Rainbow => 256
    case Rainbow2 => 256
    case Rainbow3 => 1024
    case Rainbow4 => 8192
  }

  /** Factor applied to each HSV channel before clipping (Rainbow2 to Rainbow4). */
  function PaletteScale(t: Theme): real
    requires !t.Normalized() && !t.Rainbow?
  {
    if t.Rainbow4? then 8192.0 else 1024.0
  }

  /** The hue of palette entry i out of size. */
  function Hue(i: nat, size: nat): (h: real)
    requires i < size
    ensures 0.0 <= h < 1.0
  {
    i as real / size as real
  }

  /** int(x * 255) for a channel in [0, 1]: truncation, no clipping. */
  function TruncChannel(x: real): (v: Byte)
    requires 0.0 <= x <= 1.0
    ensures v as real <= x * 255.0 < v as real + 1.0
  {
    (x * 255.0).Floor
  }

  /** np.clip(x * scale, 0, 255).astype(uint8). */
  function ClipChannel(x: real, scale: real): (v: Byte)
    ensures x * scale <= 0.0 ==> v == 0
    ensures x * scale >= 255.0 ==> v == 255
    ensures 0.0 <= x * scale <= 255.0 ==> v as real <= x * scale < v as real + 1.0
  {
    var y := x * scale;
    if y < 0.0 then 0 else if y > 255.0 then 255 else y.Floor
  }

  /** Palette entry i of a palette theme. */
  function PaletteColor(t: Theme, i: nat, hsv: real -> RealRgb): Rgb
    requires !t.Normalized() && i < PaletteSize(t)
    requires t.Rainbow? ==> HsvUnit(hsv)
  {
    var c := hsv(Hue(i, PaletteSize(t)));
    if t.Rainbow? then
      Rgb(TruncChannel(c.r), TruncChannel(c.g), TruncChannel(c.b))
    else
      var s := PaletteScale(t);
      Rgb(ClipChannel(c.r, s), ClipChannel(c.g, s), ClipChannel(c.b, s))
  }

  // ---------------------------------------------------------------------------
  // The per-pixel rule shared by every theme
  // ---------------------------------------------------------------------------

  /** What a theme needs of max_iterations and of the HSV conversion. */
  ghost predicate Colorable(t: Theme, max: int, hsv: real -> RealRgb) {
    (t.Normalized() ==> max > 0) && (t.Rainbow? ==> HsvUnit(hsv))
  }

  /** What a theme needs of one count. */
  ghost predicate CountColorable(t: Theme, count: int, max: int, hsv: real -> RealRgb) {
    Colorable(t, max, hsv) && (t.Normalized() ==> 0 <= count <= max)
  }

  /** The colour that theme t gives a pixel whose escape count is count. */
  function PixelColor(t: Theme, count: int, max: int, hsv: real -> RealRgb): Rgb
    requires CountColorable(t, count, max, hsv)
  {
    if count == max then Black
    else if t.Normalized() then FormulaColor(t, Normalize(count, max))
    else PaletteColor(t, count % PaletteSize(t), hsv)
  }

  /** Every theme paints a pixel that reached the iteration cap black. */
  lemma MaxIsBlack(t: Theme, max: int, hsv: real -> RealRgb)
    requires CountColorable(t, max, max, hsv)
    ensures PixelColor(t, max, max, hsv) == Black
  {
  }

  /** Default: red rises with the count, green is its complement, blue is 100. */
  lemma DefaultColors(count: int, max: int, hsv: real -> RealRgb)
    requires 0 <= count < max
    ensures var c := PixelColor(Default, count, max, hsv);
      c.r == Normalize(count, max) && c.r + c.g == 255 && c.b == 100 && c.r < 255
  {
  }

  /** Grayscale: the three channels agree and grow with the count. */
  lemma GrayscaleColors(c1: int, c2: int, max: int, hsv: real -> RealRgb)
    requires 0 <= c1 <= c2 < max
    ensures var p, q := PixelColor(Grayscale, c1, max, hsv), PixelColor(Grayscale, c2, max, hsv);
      p.r == p.g == p.b == Normalize(c1, max) && p.r <= q.r
  {
    var n1, n2 := Normalize(c1, max), Normalize(c2, max);
    if n1 > n2 {
      MulMono(n2 + 1, n1, max);
      MulMono(c1, c2, 255);
    }
  }

  /** Blue: red and green are the complement of blue, which is the normalised value. */
  lemma BlueColors(count: int, max: int, hsv: real -> RealRgb)
    requires 0 <= count < max
    ensures var c := PixelColor(Blue, count, max, hsv);
      c.b == Normalize(count, max) && c.r == c.g == 255 - c.b
  {
  }

  /** Fire: the channels are computed in uint8 arithmetic, so the clip that
      follows never changes them and they wrap rather than saturate. */
  lemma FireColors(count: int, max: int, hsv: real -> RealRgb)
    requires 0 <= count < max
    ensures var n, c := Normalize(count, max), PixelColor(Fire, count, max, hsv);
      c == Rgb((2 * n) % 256, (n + 50) % 256, (n - 100) % 256)
  {
  }

  /** Where each Fire channel wraps instead of saturating: red from n = 128,
      green from n = 206, blue below n = 100; elsewhere no wrap occurs. */
  lemma FireWraps(n: Byte)
    ensures FormulaColor(Fire, n).r == if n < 128 then 2 * n else 2 * n - 256
    ensures FormulaColor(Fire, n).g == if n < 206 then n + 50 else n - 206
    ensures FormulaColor(Fire, n).b == if n < 100 then n + 156 else n - 100
  {
  }

  /** Palette themes index by count mod the palette size. */
  lemma PaletteIndex(t: Theme, count: int, max: int, hsv: real -> RealRgb)
    requires !t.Normalized() && CountColorable(t, count, max, hsv) && count != max
    ensures PixelColor(t, count, max, hsv) == PaletteColor(t, count % PaletteSize(t), hsv)
  {
  }

  /** Counts one palette length apart get the same colour unless one is the cap. */
  lemma PaletteWraps(t: Theme, count: int, max: int, hsv: real -> RealRgb)
    requires !t.Normalized() && Colorable(t, max, hsv)
    requires count != max && count + PaletteSize(t) != max
    ensures PixelColor(t, count + PaletteSize(t), max, hsv) == PixelColor(t, count, max, hsv)
  {
    var p := PaletteSize(t);
    DivModUnique(count + p, p, count / p + 1, count % p);
  }

  /** The palette sizes of the four palette themes. */
  lemma PaletteSizes()
    ensures PaletteSize(Rainbow) == 256 && PaletteSize(Rainbow2) == 256
    ensures PaletteSize(Rainbow3) == 1024 && PaletteSize(Rainbow4) == 8192
  {
  }

  /** Rainbow2 to Rainbow4 clip each scaled channel into [0, 255]: a channel at
      or above 255 / scale saturates, a channel at or below 0 gives 0, and in
      between the scaled value is truncated. */
  lemma ClippedPaletteEntry(t: Theme, i: nat, hsv: real -> RealRgb)
    requires (t.Rainbow2? || t.Rainbow3? || t.Rainbow4?) && i < PaletteSize(t)
    ensures var c, e, s := hsv(Hue(i, PaletteSize(t))), PaletteColor(t, i, hsv), PaletteScale(t);
      && (c.r * s >= 255.0 ==> e.r == 255) && (c.g * s >= 255.0 ==> e.g == 255)
      && (c.b * s >= 255.0 ==> e.b == 255)
      && (c.r <= 0.0 ==> e.r == 0) && (c.g <= 0.0 ==> e.g == 0) && (c.b <= 0.0 ==> e.b == 0)
      && (0.0 <= c.r * s <= 255.0 ==> e.r as real <= c.r * s < e.r as real + 1.0)
      && (0.0 <= c.g * s <= 255.0 ==> e.g as real <= c.g * s < e.g as real + 1.0)
      && (0.0 <= c.b * s <= 255.0 ==> e.b as real <= c.b * s < e.b as real + 1.0)
  {
  }

  // ---------------------------------------------------------------------------
  // The colour buffer, filled in place
  // ---------------------------------------------------------------------------

  /** Every count of the grid lies in [0, max]. */
  predicate CountsInRange(iterations: array2<int>, max: int)
    reads iterations
  {
    forall i, j :: 0 <= i < iterations.Length0 && 0 <= j < iterations.Length1 ==>
      0 <= iterations[i, j] <= max
  }

  /** What apply_color_theme needs of its arguments for theme t. */
  ghost predicate GridColorable(t: Theme, iterations: array2<int>, max: int, hsv: real -> RealRgb)
    reads iterations
  {
    Colorable(t, max, hsv) && (t.Normalized() ==> CountsInRange(iterations, max))
  }

  /** colors[mask] = (0, 0, 0) with mask = iterations == max. */
  method MaskToBlack(iterations: array2<int>, max: int, colors: array2<Rgb>)
    requires colors.Length0 == iterations.Length0 && colors.Length1 == iterations.Length1
    modifies colors
    ensures forall i, j :: 0 <= i < colors.Length0 && 0 <= j < colors.Length1 ==>
      colors[i, j] == if iterations[i, j] == max then Black else old(colors[i, j])
  {
    for i := 0 to colors.Length0
      invariant forall a, b :: 0 <= a < colors.Length0 && 0 <= b < colors.Length1 ==>
        colors[a, b] == if a < i && iterations[a, b] == max then Black else old(colors[a, b])
    {
      for j := 0 to colors.Length1
        invariant forall a, b :: 0 <= a < colors.Length0 && 0 <= b < colors.Length1 ==>
          colors[a, b] == if (a < i || (a == i && b < j)) && iterations[a, b] == max then Black else old(colors[a, b])
      {
        if iterations[i, j] == max {
          colors[i, j] := Black;
        }
      }
    }
  }

  /** The channel writes of a formula theme: every pixel, or (for Default) only
      the pixels below the cap, gets the theme's colour of its normalised value. */
  method FillNormalized(t: Theme, iterations: array2<int>, max: int, colors: array2<Rgb>, onlyUnmasked: bool)
    requires t.Normalized() && 0 < max && CountsInRange(iterations, max)
    requires colors.Length0 == iterations.Length0 && colors.Length1 == iterations.Length1
    modifies colors
    ensures forall i, j :: 0 <= i < colors.Length0 && 0 <= j < colors.Length1 ==>
      colors[i, j] == if onlyUnmasked && iterations[i, j] == max then old(colors[i, j])
                      else FormulaColor(t, Normalize(iterations[i, j], max))
  {
    for i := 0 to colors.Length0
      invariant forall a, b :: 0 <= a < colors.Length0 && 0 <= b < colors.Length1 ==>
        colors[a, b] == if a >= i || (onlyUnmasked && iterations[a, b] == max) then old(colors[a, b])
                        else FormulaColor(t, Normalize(iterations[a, b], max))
    {
      for j := 0 to colors.Length1
        invariant forall a, b :: 0 <= a < colors.Length0 && 0 <= b < colors.Length1 ==>
          colors[a, b] == if (a > i || (a == i && b >= j)) || (onlyUnmasked && iterations[a, b] == max) then old(colors[a, b])
                          else FormulaColor(t, Normalize(iterations[a, b], max))
      {
        if !(onlyUnmasked && iterations[i, j] == max) {
          colors[i, j] := FormulaColor(t, Normalize(iterations[i, j], max));
        }
      }
    }
  }

  /** The palette of a palette theme, built entry by entry. */
  method BuildPalette(t: Theme, hsv: real -> RealRgb) returns (palette: array<Rgb>)
    requires !t.Normalized() && (t.Rainbow? ==> HsvUnit(hsv))
    ensures palette.Length == PaletteSize(t)
    ensures forall i :: 0 <= i < palette.Length ==> palette[i] == PaletteColor(t, i, hsv)
  {
    var size := PaletteSize(t);
    palette := new Rgb[size];
    for i := 0 to size
      invariant forall k :: 0 <= k < i ==> palette[k] == PaletteColor(t, k, hsv)
    {
      palette[i] := PaletteColor(t, i, hsv);
    }
  }

  /** colors[:] = palette[np.mod(iterations, P)]. */
  method FillFromPalette(iterations: array2<int>, palette: array<Rgb>, colors: array2<Rgb>)
    requires palette.Length > 0
    requires colors.Length0 == iterations.Length0 && colors.Length1 == iterations.Length1
    modifies colors
    ensures forall i, j :: 0 <= i < colors.Length0 && 0 <= j < colors.Length1 ==>
      colors[i, j] == palette[iterations[i, j] % palette.Length]
  {
    for i := 0 to colors.Length0
      invariant forall a, b :: 0 <= a < i && 0 <= b < colors.Length1 ==>
        colors[a, b] == palette[iterations[a, b] % palette.Length]
    {
      for j := 0 to colors.Length1
        invariant forall a, b :: 0 <= a < i && 0 <= b < colors.Length1 ==>
          colors[a, b] == palette[iterations[a, b] % palette.Length]
        invariant forall b :: 0 <= b < j ==> colors[i, b] == palette[iterations[i, b] % palette.Length]
      {
        colors[i, j] := palette[iterations[i, j] % palette.Length];
      }
    }
  }

  /** apply_color_theme: a fresh H x W buffer of RGB triples, each pixel coloured
      by the theme the name selects (Default for an unknown name). */
  method ApplyColorTheme(iterations: array2<int>, max: int, name: string, hsv: real -> RealRgb)
    returns (colors: array2<Rgb>)
    requires GridColorable(ThemeOf(name), iterations, max, hsv)
    ensures fresh(colors)
    ensures colors.Length0 == iterations.Length0 && colors.Length1 == iterations.Length1
    ensures forall i, j :: 0 <= i < colors.Length0 && 0 <= j < colors.Length1 ==>
      colors[i, j] == PixelColor(ThemeOf(name), iterations[i, j], max, hsv)
  {
    var t := ThemeOf(name);
    colors := new Rgb[iterations.Length0, iterations.Length1];
    if t.Default? {
      MaskToBlack(iterations, max, colors);
      FillNormalized(t, iterations, max, colors, true);
    } else if t.Normalized() {
      FillNormalized(t, iterations, max, colors, false);
      MaskToBlack(iterations, max, colors);
    } else {
      var palette := BuildPalette(t, hsv);
      FillFromPalette(iterations, palette, colors);
      MaskToBlack(iterations, max, colors);
    }
  }
}
