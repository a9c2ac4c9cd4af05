/** The four colour palettes that components/chart.tsx exports. */
module Palettes {
  import opened Color

  const DefaultPalette: seq<string> := [
    "#004c6d", "#055e80", "#0e7194", "#1685a7", "#2099ba",
    "#2baecc", "#38c3de", "#46d9ef", "#56efff"
  ]

  const AltPalette: seq<string> := [
    "#003f5c", "#2f4b7c", "#665191", "#a05195", "#d45087",
    "#f95d6a", "#ff7c43", "#ffa600", "#ffd800"
  ]

  const RetroPalette: seq<string> := [
    "#ea5545", "#f46a9b", "#ef9b20", "#edbf33", "#ede15b",
    "#bdcf32", "#87bc45", "#27aeef", "#b33dc6"
  ]

  const PastelPalette: seq<string> := [
    "#fd7f6f", "#7eb0d5", "#b2e061", "#bd7ebe", "#ffb55a",
    "#ffee65", "#beb9db", "#fdcce5", "#8bd3c7", "#8bd3c7"
  ]

  /** Every entry is a `#RRGGBB` colour. */
  predicate AllHexColors(palette: seq<string>) {
    forall i | 0 <= i < |palette| :: IsHexColor(palette[i])
  }

  /** Every entry is something `hexToRGB` can read. */
  predicate AllParsable(palette: seq<string>) {
    forall i | 0 <= i < |palette| :: ParsableHex(palette[i])
  }

  /** A palette of `#RRGGBB` colours can be given to `hexToRGB` entry by entry. */
  lemma HexColorsAreParsable(palette: seq<string>)
    requires AllHexColors(palette)
    ensures AllParsable(palette)
  {
    forall i | 0 <= i < |palette| ensures ParsableHex(palette[i]) {
      assert IsHexColor(palette[i]);
    }
  }

  /** The 9 entries of `defaultColorPalette` are `#RRGGBB` colours that `hexToRGB` can read. */
  lemma DefaultPaletteIsHexColors()
    ensures AllHexColors(DefaultPalette) && AllParsable(DefaultPalette) && |DefaultPalette| == 9
  {
    HexColorsAreParsable(DefaultPalette);
  }

  /** The 9 entries of `altColorPalette` are `#RRGGBB` colours that `hexToRGB` can read. */
  lemma AltPaletteIsHexColors()
    ensures AllHexColors(AltPalette) && AllParsable(AltPalette) && |AltPalette| == 9
  {
    HexColorsAreParsable(AltPalette);
  }

  /** The 9 entries of `retroColorPalette` are `#RRGGBB` colours that `hexToRGB` can read. */
  lemma RetroPaletteIsHexColors()
    ensures AllHexColors(RetroPalette) && AllParsable(RetroPalette) && |RetroPalette| == 9
  {
    HexColorsAreParsable(RetroPalette);
  }

  /** The 10 entries of `pastelColorPalette` are `#RRGGBB` colours that `hexToRGB` can read. */
  lemma PastelPaletteIsHexColors()
    ensures AllHexColors(PastelPalette) && AllParsable(PastelPalette) && |PastelPalette| == 10
  {
    HexColorsAreParsable(PastelPalette);
  }

  /**
   * A summary of the four per-palette lemmas above, for callers that need
   * all of them: every entry of the four built-in palettes is '#' and six lower-case hex
   * digits, so each satisfies the precondition of `hexToRGB`; the first
   * three have nine entries and the pastel one ten.
   */
  lemma BuiltInPalettesAreHexColors()
    ensures AllHexColors(DefaultPalette) && AllParsable(DefaultPalette) && |DefaultPalette| == 9
    ensures AllHexColors(AltPalette) && AllParsable(AltPalette) && |AltPalette| == 9
    ensures AllHexColors(RetroPalette) && AllParsable(RetroPalette) && |RetroPalette| == 9
    ensures AllHexColors(PastelPalette) && AllParsable(PastelPalette) && |PastelPalette| == 10
  {
    DefaultPaletteIsHexColors();
    AltPaletteIsHexColors();
    RetroPaletteIsHexColors();
    PastelPaletteIsHexColors();
  }

  /**
   * The default, alt and retro palettes hold nine different colours each;
   * the pastel palette repeats its ninth colour as its tenth, so a tenth
   * metric is drawn in the same colour as the ninth.
   */
  lemma BuiltInPaletteRepeats()
    ensures forall i, j | 0 <= i < j < |DefaultPalette| :: DefaultPalette[i] != DefaultPalette[j]
    ensures forall i, j | 0 <= i < j < |AltPalette| :: AltPalette[i] != AltPalette[j]
    ensures forall i, j | 0 <= i < j < |RetroPalette| :: RetroPalette[i] != RetroPalette[j]
    ensures PastelPalette[8] == PastelPalette[9]
    ensures forall i, j | 0 <= i < j < 9 :: PastelPalette[i] != PastelPalette[j]
  {
  }
}
