# Fractal Frontier — a verified model of the rendering core

Fractal Frontier is an interactive escape-time fractal viewer. This project models its three core pieces in Dafny:

- **Colour themes** (`themes.dfy`, module `Themes`). `apply_color_theme` turns a grid of escape counts and `max_iterations` into a grid of RGB bytes. There are eight named themes:
  - four per-pixel formulas over the normalised value `n = count*255 div max`: Default, Grayscale, Blue and Fire;
  - four palette lookups by `count mod P`: Rainbow, Rainbow2, Rainbow3 and Rainbow4.

  Every theme paints the pixels that reached the cap black, and an unknown name falls back to Default. The colour buffer is an `array2<Rgb>` filled in place, in the order the source writes it. The palette is an `array<Rgb>` built by a loop.
- **Section evaluators** (`fractals.dfy`, module `Fractals`):
  - `mandelbrot_section_jit`, `julia_section_jit` and `fatou_section_jit` fill a `height × section_width` count array with nested loops. Pixel `(i, j)` of section `k` is mapped to global column `k*section_width + j`, and a bounded `while` loop runs the recurrence.
  - The `MandelbrotCalculator` methods compose an evaluator with the colour themes.
  - Complex numbers are pairs of exact reals.
  - Each count is specified by `EscapeTime`: the index of the first escaping orbit point, capped at the budget.
- **Viewer logic** (`frontier.dfy`, module `Frontier`):
  - the column-section scheduling of `draw_mandelbrot`: the largest power of two not above the core count, `width div N`, one task per section, and `hstack` in order;
  - the theme menu and `advance_theme`;
  - a `Viewer` class whose fields are the viewport bounds, the zooming flag, the theme, the zoom level and the iteration budget. Its methods are `draw_mandelbrot`, `zoom`, `move_*`, `reset_view`, `slider_update`, `theme_changed` and `advance_theme`.

Integer division and remainder facts shared by the themes and the viewer live in `arith.dfy`, module `Arith`.

## Model

| member | source | states |
|---|---|---|
| Themes.ThemeOf | themes.py:119-128 | the theme selected by a name is the one with that exact name, or Default when no theme has that name |
| Themes.ThemeOfName | themes.py:119-128 | every theme is found by its own name, so the lookup is injective on the eight names |
| Themes.UnknownNameIsDefault | themes.py:132 | a name that is not a key behaves exactly like "Default" |
| Themes.Normalize | themes.py:26-28 | the normalised value is the truncated quotient `count*255 div max`: a byte, and 255 exactly when the count is the cap |
| Themes.Clip | themes.py:61-63 | np.clip lands in [lo, hi] and leaves a value already in range unchanged |
| Themes.PaletteSize | themes.py:69-108 | every palette is non-empty |
| Themes.Hue | themes.py:70-110 | the hue `i / P` of entry i lies in [0, 1) |
| Themes.TruncChannel | themes.py:73 | `int(x*255)` for a channel in [0, 1] is the truncation of x*255 and a byte |
| Themes.ClipChannel | themes.py:87-113 | a scaled channel at or below 0 gives 0, at or above 255 gives 255, and in between its truncation |
| Themes.MaxIsBlack | themes.py:24-117 | for every theme, a pixel whose count equals the cap is (0, 0, 0) |
| Themes.DefaultColors | themes.py:29-32 | a Default pixel below the cap has red n, green 255 − n and blue 100, and red is below 255 |
| Themes.GrayscaleColors | themes.py:39-41 | a Grayscale pixel below the cap has three equal channels n, and the grey is monotone in the count |
| Themes.BlueColors | themes.py:50-52 | a Blue pixel below the cap has blue n and red = green = 255 − n |
| Themes.FireColors | themes.py:61-63 | a Fire pixel below the cap is (2n mod 256, (n+50) mod 256, (n−100) mod 256): uint8 wrap-around, which the clip never changes |
| Themes.FireWraps | themes.py:61-63 | for every n, where each Fire channel wraps instead of saturating: red from n = 128, green from n = 206, blue below n = 100 |
| Themes.PaletteIndex | themes.py:74-115 | a palette-theme pixel below the cap is palette entry `count mod P` |
| Themes.PaletteWraps | themes.py:74-115 | counts c and c + P get the same colour when neither is the cap |
| Themes.PaletteSizes | themes.py:69-108 | the palette sizes are 256, 256, 1024 and 8192 |
| Themes.ClippedPaletteEntry | themes.py:87-113 | each Rainbow2–4 entry channel is clipped into [0, 255]: saturated above 255/scale, 0 at or below 0, truncated in between |
| Themes.MaskToBlack | themes.py:24-25 | the masking write sets exactly the cap pixels to black and leaves every other pixel as it was |
| Themes.FillNormalized | themes.py:26-63 | the channel writes give every pixel (Default: every pixel below the cap) the formula colour of its normalised value, and leave the rest as they were |
| Themes.BuildPalette | themes.py:69-113 | the palette loop yields P entries, entry i being the colour of hue i/P |
| Themes.FillFromPalette | themes.py:74-75 | `colors[:] = palette[mod(iterations, P)]` is written out pixel by pixel |
| Themes.Name | themes.py:119-128 | the dictionary key of each theme (no contract of its own; ThemeOf and ThemeOfName state the lookup) |
| Themes.Wrap8 | themes.py:61-63 | uint8 arithmetic: the value reduced mod 256 (its effect is stated by FireColors and FireWraps) |
| Themes.FormulaColor | themes.py:29-63 | the channel formulas of Default, Grayscale, Blue and Fire for a normalised value n (stated channel by channel by DefaultColors, GrayscaleColors, BlueColors, FireColors) |
| Themes.PaletteScale | themes.py:87-113 | the factor 1024 (Rainbow2, Rainbow3) or 8192 (Rainbow4) applied before the clip (used by ClippedPaletteEntry) |
| Themes.PaletteColor | themes.py:69-113 | palette entry i: the HSV colour of hue i/P, truncated (Rainbow) or scaled and clipped (Rainbow2–4); stated by ClippedPaletteEntry and BuildPalette |
| Themes.HsvUnit | themes.py:72 | the range [0, 1] of colorsys.hsv_to_rgb channels, which Rainbow relies on |
| Themes.PixelColor | themes.py:22-117 | the colour of one pixel: black at the cap, else the formula or palette colour; its properties are MaxIsBlack, the *Colors lemmas, PaletteIndex and PaletteWraps, and ApplyColorTheme is proved equal to it pixel by pixel |
| Themes.ApplyColorTheme | themes.py:9-134 | a newly allocated buffer of the counts grid's shape, for any name, in which every pixel is the per-pixel colour of its count under the selected theme |
| Fractals.Div | fractals.py:148 | complex division, with 0 for a zero divisor (NewtonFixesZero) |
| Fractals.NewtonStep | fractals.py:148 | z − (z³ − 1) / (3z²); NewtonFixesOne and NewtonFixesZero state its fixed points |
| Fractals.PixelPoint | fractals.py:43-46 | the plane point of row i and global column gx, `x_min + gx*(x_max − x_min)/width`; PixelPointCorners states where the corners go |
| Fractals.Orbit | fractals.py:49-53 | the n-th value of z after n loop steps; OrbitShift relates consecutive orbits |
| Fractals.Escaped | fractals.py:49 | the loop's exit test Re² + Im² ≥ 4 |
| Fractals.Quadratic | fractals.py:52 | the update z*z + c; QuadraticAtOrigin states its value at 0 |
| Fractals.MandelbrotStart | fractals.py:47 | the Mandelbrot loop starts at z = 0 |
| Fractals.OwnPoint | fractals.py:96 | the Julia and Fatou loops start at the pixel's own plane point |
| Fractals.MandelbrotColor | fractals.py:178-190 | the theme colour of a point's Mandelbrot count; CalculateMandelbrotSection and FixedPointsAreBlack state it |
| Fractals.JuliaColor | fractals.py:209-222 | the theme colour of a point's Julia count; CalculateJuliaSection states it |
| Fractals.FatouColor | fractals.py:224-252 | the theme colour of a point's Fatou count; CalculateFatouSection and FixedPointsAreBlack state it |
| Fractals.NewtonFixesZero | fractals.py:148 | the model's Newton step keeps the origin, where the source divides by zero, fixed |
| Fractals.NewtonFixesOne | fractals.py:148 | the root 1 of z³ − 1 is a fixed point of the Newton step |
| Fractals.PixelPointCorners | fractals.py:44-45 | the pixel mapping sends column 0, row 0 to (x_min, y_min) and column width, row height to (x_max, y_max) |
| Fractals.EscapeTime | fractals.py:48-53 | the loop count lies in [0, max], and is 0 for a non-positive budget |
| Fractals.OrbitShift | fractals.py:52 | the orbit of step(z0) is the orbit of z0 one step later |
| Fractals.EscapeTimeSpec | fractals.py:49-53 | the count n is the first escape index capped at max: no orbit point before n escaped, and n is below the cap only if point n escaped |
| Fractals.EscapeTimeUnique | fractals.py:49-53 | any count with that property equals EscapeTime, so the loop's count is determined by it |
| Fractals.FixedPointReachesCap | fractals.py:49-53 | a non-escaping fixed point of the step runs the loop up to the cap |
| Fractals.EscapeCount | fractals.py:47-54 | the while loop returns EscapeTime, together with the orbit point it stopped at, which has escaped whenever the count is below the cap |
| Fractals.CountZeroIffStartEscaped | fractals.py:49-51 | with a positive budget, the count is 0 exactly when the start point has already escaped |
| Fractals.MandelbrotCount | fractals.py:47-53 | the Mandelbrot count lies in [0, max] |
| Fractals.JuliaCount | fractals.py:96-102 | the Julia count lies in [0, max] |
| Fractals.FatouCount | fractals.py:143-149 | the Fatou count lies in [0, max] |
| Fractals.FirstStepLandsOn | fractals.py:47-53 | the one-step unfolding of the loop that `MandelbrotFromOrigin` uses: a non-escaping start whose first step is c (for z*z + c that is the start 0) runs as long as the Mandelbrot count of c, for every budget |
| Fractals.QuadraticAtOrigin | fractals.py:47-52 | the first Mandelbrot step from z = 0 lands on c |
| Fractals.MandelbrotFromOrigin | fractals.py:46-53 | the loop from z = 0 under z*z + c gives exactly MandelbrotCount(c) |
| Fractals.MandelbrotCountPositive | fractals.py:47-53 | with max ≥ 1 every Mandelbrot count is at least 1, because z = 0 never fails the first test |
| Fractals.JuliaCountZero | fractals.py:96-102 | with max ≥ 1 the Julia count is 0 exactly when the mapped start point has already escaped |
| Fractals.FatouCountZero | fractals.py:143-149 | with max ≥ 1 the Fatou count is 0 exactly when the mapped start point has already escaped |
| Fractals.QuadraticFixedPointReachesCap | fractals.py:98-102 | a non-escaping fixed point of z*z + c has the full Julia count |
| Fractals.FixedAfter | fractals.py:49-53 | the orbit stays inside the escape radius for its first m steps and its m-th point is a fixed point of the step |
| Fractals.EventuallyFixedReachesCap | fractals.py:49-53 | an orbit that reaches a fixed point without escaping never escapes, so it runs the whole budget |
| Fractals.MandelbrotFixedPoint | fractals.py:47-53 | a plane point whose orbit from 0 reaches, after m non-escaping steps, a fixed point of z*z + c has the full Mandelbrot count for every budget |
| Fractals.OriginReachesCap | fractals.py:47-53 | the origin has the full Mandelbrot count |
| Fractals.RootReachesCap | fractals.py:143-149 | the Newton root 1 has the full Fatou count |
| Fractals.Section | fractals.py:40-54 | a height × sw array in which every entry (i, j) is the escape count of the plane point of row i and global column k*sw + j |
| Fractals.MandelbrotSection | fractals.py:10-55 | every entry of the section is the Mandelbrot count of the plane point of its row and global column |
| Fractals.JuliaSection | fractals.py:58-104 | every entry of the section is the Julia count, constant c, of its plane point |
| Fractals.FatouSection | fractals.py:107-151 | every entry of the section is the Fatou count of its plane point |
| Fractals.ColoredSection | fractals.py:178-190 | a height × sw colour grid in which each pixel is the theme colour of its escape count |
| Fractals.FixedPointsAreBlack | fractals.py:47-53 | under every theme the origin of the Mandelbrot image and the root 1 of the Fatou image are black |
| Fractals.CalculateMandelbrotSection | fractals.py:162-190 | a height × sw grid in which every pixel is the theme colour of the Mandelbrot count of its plane point |
| Fractals.CalculateJuliaSection | fractals.py:192-222 | a height × sw grid in which every pixel is the theme colour of the Julia count of its plane point |
| Fractals.CalculateFatouSection | fractals.py:224-252 | a height × sw grid in which every pixel is the theme colour of the Fatou count of its plane point |
| Frontier.NumSections | Fractal_Frontier.py:398 | the section count is a power of two N with N ≤ cores < 2N |
| Frontier.PowerOfTwoGap | Fractal_Frontier.py:398 | distinct powers of two are at least a factor 2 apart |
| Frontier.NumSectionsUnique | Fractal_Frontier.py:398 | N is the only power of two with that property |
| Frontier.SectionWidth | Fractal_Frontier.py:399 | `width div N` gives sections that cover at most width columns and fall short of it by fewer than N |
| Frontier.ImageWidth | Fractal_Frontier.py:398-408 | the joined image is at most width columns wide, drops fewer than N of them, and is a multiple of N |
| Frontier.SectionIndex | Fractal_Frontier.py:401-408 | each global column below N*sw lies in a section k < N and within its sw columns |
| Frontier.SectionIndexUnique | Fractal_Frontier.py:401-408 | that section is the only one containing the column, so the sections cover [0, N*sw) exactly once |
| Frontier.PowerOfTwo | Fractal_Frontier.py:398 | the values `2 ** k` that the section count can take |
| Frontier.Tasks | Fractal_Frontier.py:401-405 | the task list: one task per index 0..N−1, in order, each carrying the section width, image size, view, budget and theme |
| Frontier.HStack | Fractal_Frontier.py:408 | hstack gives a grid of the sections' height and N*sw columns whose column gx is column gx − k*sw of section k, the section containing gx |
| Frontier.DrawSections | Fractal_Frontier.py:398-408 | the joined image has ImageWidth columns, each pixel the Mandelbrot colour of its own plane point, exactly as in a one-section render |
| Frontier.IndexOf | Fractal_Frontier.py:720 | `list.index` finds the first position holding the value |
| Frontier.IndexOfAt | Fractal_Frontier.py:720 | in a list without repeats, the index of the entry at k is k |
| Frontier.Next | Fractal_Frontier.py:720-722 | the next entry of a list is again a member of it |
| Frontier.Advance | Fractal_Frontier.py:720-722 | k advances stay within the list |
| Frontier.AdvanceIndex | Fractal_Frontier.py:720-722 | k advances move the index to (i + k) mod length |
| Frontier.AdvanceCycle | Fractal_Frontier.py:721 | length-many advances return to the start |
| Frontier.AdvanceReaches | Fractal_Frontier.py:721 | every entry is reached in fewer than length advances |
| Frontier.NextMoves | Fractal_Frontier.py:721 | in a list of two or more distinct entries, advancing always changes the entry |
| Frontier.ThemeNamesAreKeys | Fractal_Frontier.py:259 | the eight menu entries are distinct, every theme's name is among them, and each entry selects the theme of that name |
| Frontier.NextTheme | Fractal_Frontier.py:718-724 | advancing the theme yields a member of the menu |
| Frontier.NextThemeIndex | Fractal_Frontier.py:720-722 | advance_theme moves the menu index to (i + 1) mod 8 |
| Frontier.NextThemeDiffers | Fractal_Frontier.py:718-724 | advancing always selects a different theme |
| Frontier.ThemeCycle | Fractal_Frontier.py:718-724 | eight advances return to the starting theme |
| Frontier.EveryThemeReached | Fractal_Frontier.py:718-724 | every theme is reached within eight advances from any menu entry |
| Frontier.ZoomCentre | Fractal_Frontier.py:571-576 | the centre of the view for a key press, else the plane point under the pointer |
| Frontier.ZoomView | Fractal_Frontier.py:569-584 | the bounds zoom computes; ZoomScales, ZoomKeepsProper, ZoomKeepsCentre, ZoomCentresPointer and ZoomInverse state them |
| Frontier.ZoomScales | Fractal_Frontier.py:569-584 | the zoomed view's width and height are the old ones times zoom_factor, and its midpoint is the zoom centre |
| Frontier.ScaleCompare | Fractal_Frontier.py:578-579 | a positive extent shrinks exactly when the factor is below 1 and grows exactly when it is above 1 |
| Frontier.ZoomKeepsProper | Fractal_Frontier.py:578-584 | a positive factor keeps x_min < x_max and y_min < y_max |
| Frontier.ZoomKeepsCentre | Fractal_Frontier.py:571-584 | a key-press zoom keeps the centre of the view |
| Frontier.ZoomCentresPointer | Fractal_Frontier.py:574-584 | a pointer zoom centres the new view on the plane point of the pixel under the pointer |
| Frontier.ZoomInverse | Fractal_Frontier.py:569-584 | a key-press zoom by 1/f undoes one by f |
| Frontier.Pan | Fractal_Frontier.py:661-695 | one move_* update, written in the source's sequential order; PanEffect states its effect |
| Frontier.PanEffect | Fractal_Frontier.py:661-695 | a move shifts the near bound by a tenth of the old extent and, because the second update reads the moved bound, leaves 0.99 of the extent |
| Frontier.Viewer.Valid | Fractal_Frontier.py:387-395 | what holds after every draw: a proper view, zoom level base_range / (x_max − x_min), a menu theme, max_iterations = automatic budget + offset, and the automatic budget following the zoom level when auto adjust is on |
| Frontier.Viewer.ZoomBlocked | Fractal_Frontier.py:561 | zoom's first guard, zoom level ≤ 0.26 and factor ≥ 2 |
| Frontier.Viewer.constructor | Fractal_Frontier.py:227-321 | the viewer starts 160 × 120 on (−2, 1, −1.5, 1.5) with theme "Default", auto adjust on, offset 0, not zooming, zoom level 1 |
| Frontier.Viewer.DrawMandelbrot | Fractal_Frontier.py:387-395 | the zoom level becomes base_range / (x_max − x_min), the automatic budget follows it when auto adjust is on, and max_iterations is budget plus offset |
| Frontier.Viewer.Render | Fractal_Frontier.py:396-408 | the drawn image has ImageWidth columns and shows each pixel's Mandelbrot colour under the current view, budget and theme |
| Frontier.Viewer.Zoom | Fractal_Frontier.py:553-587 | both guards leave the view unchanged; otherwise the view becomes the zoomed view; the flag is cleared by the first guard and by a completed zoom, and stays set in the busy case; with auto adjust off the automatic budget is kept |
| Frontier.Viewer.SetView | Fractal_Frontier.py:581-585 | assigning a proper view and redrawing keeps the viewer's invariant; with auto adjust off the automatic budget is kept |
| Frontier.Viewer.MoveDown | Fractal_Frontier.py:654-663 | y bounds update as the sequential pan by +0.1; the zoom level is unchanged; with auto adjust off the automatic budget is kept |
| Frontier.Viewer.MoveUp | Fractal_Frontier.py:665-674 | y bounds update as the sequential pan by −0.1; the zoom level is unchanged; with auto adjust off the automatic budget is kept |
| Frontier.Viewer.MoveLeft | Fractal_Frontier.py:676-685 | x bounds update as the sequential pan by −0.1; with auto adjust off the automatic budget is kept |
| Frontier.Viewer.MoveRight | Fractal_Frontier.py:687-696 | x bounds update as the sequential pan by +0.1; with auto adjust off the automatic budget is kept |
| Frontier.Viewer.ResetView | Fractal_Frontier.py:538-551 | the view returns to (−2, 1, −1.5, 1.5) at zoom level 1 with theme "Default", auto adjust on and offset 0 |
| Frontier.Viewer.SliderUpdate | Fractal_Frontier.py:346-348 | the offset becomes the slider value and the next budget includes it; with auto adjust off the automatic budget is kept |
| Frontier.Viewer.ThemeChanged | Fractal_Frontier.py:352-360 | the theme becomes the menu choice; the view is unchanged; with auto adjust off the automatic budget is kept |
| Frontier.Viewer.AdvanceTheme | Fractal_Frontier.py:711-725 | the theme becomes the next menu entry after the current one; with auto adjust off the automatic budget is kept |

The `Viewer` methods keep `Valid()` as an invariant:
- the view is proper and the zoom level is `base_range / (x_max − x_min)`;
- the theme is a menu entry;
- `max_iterations` is the automatic budget plus the offset.

## Left out

- The Tk GUI is not modelled: widgets, key and mouse bindings, canvas, PhotoImage, the title and the status bar. These are user-interface code.
- Window resizing, `redraw` and `toggle_auto_adjust` are not modelled. Canvas width and height are fields that stay at their start values, because resizing is timer-driven UI.
- The multiprocessing pool, `starmap` and spawn start method are not modelled; `starmap` is a sequential loop over the task list, in order. numba `prange` is an ordinary loop. Both are concurrency.
- Bookmark save, load and delete are not modelled, because they are JSON file I/O.
- `fluid_zoom` (animation through timer callbacks) and the rendering-time measurement are not modelled.
- Frontier.Viewer.DrawMandelbrot: the automatic budget formula `int(100 * zoom_level ** 0.11)` and the slider range it sets use float powers and logarithms. The formula is the constructor parameter `autoIterationsAt`. The slider range is not modelled.
- Themes.BuildPalette: `colorsys.hsv_to_rgb` is a floating-point library call and is the parameter `hsv`. For Rainbow, whose channels are truncated without a clip, its values are required to lie in [0, 1].
- Themes.Normalize: float32 rounding is not modelled. The normalised value is the exact integer quotient `count*255 div max`.
- Fractals.PixelPointCorners: IEEE-754 rounding in the pixel mapping and in the recurrences is not modelled. All coordinates and orbit points are exact reals.
- Fractals.FatouCount: at z = 0 the source's complex division by zero raises ZeroDivisionError. The model's `Div` returns 0 for a zero divisor instead, so the Newton step keeps 0 fixed.
- Fractals.Section: the pixel mapping divides by `width` and `height`, so a non-empty section requires a non-zero width. The source fails with a division by zero there.
- Themes.ApplyColorTheme: the formula themes require `max_iterations > 0` and counts in [0, max], so the model does not cover a budget of 0 or below. The source still colours such images: with `max_iterations < 0`, every count is 0 and `0*255/max` casts to 0, so every pixel gets its theme's n = 0 colour (Default gives (0, 255, 100)); with `max_iterations == 0`, every count equals the cap and the whole image is black, with NumPy raising NaN warnings.
- Frontier.Viewer.Zoom: requires `zoom_factor > 0`; every caller in the source passes 0.75, 1.5, 0.5 or 2 (the factors 0.125 and 8 go to `fluid_zoom`, which is not modelled). Events are reduced to "key press" (type "2", centre of view) and "pointer at (x, y)".
- Frontier.Viewer.ResetView: the source resets the slider widget (`offset_scale.set(0)`), whose callback sets the offset. The model sets `iterationOffset` to 0 directly.
- Frontier.DrawSections: it uses the colouring evaluator of fractals.py (`calculate_mandelbrot_section`). Fractal_Frontier.py's own copies of `apply_color_theme` and `mandelbrot_section_jit` are superseded by themes.py and fractals.py and are not modelled separately.
- Frontier.Viewer.SliderUpdate: it takes the slider value as an integer. The source parses a string with `int(value)` and ignores a value that fails to parse (the `ValueError` branch, which leaves the state unchanged); string parsing is not modelled.
- Frontier.Viewer.ThemeChanged: the value comes from the theme menu, so it is required to be one of its eight entries.
- Fractals.MandelbrotCount: it is defined through the Julia loop one step in. MandelbrotFromOrigin proves it equal to the source's loop from z = 0.
- The normalised value truncates rather than rounds, as the code does.
- Fire wraps around in uint8 arithmetic rather than saturating, as the code does.
- The columns of `width mod N` that fall outside every section are dropped from the image, as the code does.
