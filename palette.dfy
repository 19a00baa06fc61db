/** The colormap identities the plotting code distinguishes and the
    256-entry hex ramp handed to the legend (`_make_bokeh_color_palette`,
    `_makeBokehColorPalette`, `makeBokehColorPalette`: three copies of one
    comprehension). */
module Palette {

  /** matplotlib colormaps, by identity: the fifteen the code lists as
      diverging, the four sequential ones the command-line script offers,
      and every other colormap object. */
  datatype Colormap =
    | Coolwarm | PiYG | PRGn | BrBG | PuOr | RdGy | RdBu | RdYlBu | RdYlGn
    | Spectral | Bwr | Seismic | Berlin | Managua | Vanimo
    | Plasma | Inferno | Magma | Viridis
    | OtherColormap(name: string)
  {
    /** Classification attached to each variant: true exactly for the
        fifteen listed diverging maps. A reversed diverging map (`RdBu_r`,
        `coolwarm_r`) or any other diverging map is an `OtherColormap` and
        gets the sequential range. */
    predicate InDivergingList() {
      !(Plasma? || Inferno? || Magma? || Viridis? || OtherColormap?)
    }
  }

  /** The diverging colormaps the palette maker tests membership against. */
  const DivergingColormaps: seq<Colormap> := [
    Coolwarm, PiYG, PRGn, BrBG, PuOr, RdGy, RdBu, RdYlBu, RdYlGn,
    Spectral, Bwr, Seismic, Berlin, Managua, Vanimo
  ]

  /** Membership in the fifteen diverging colormaps listed above. */
  predicate IsDiverging(c: Colormap) {
    c in DivergingColormaps
  }

  /** The membership list names fifteen distinct colormaps, and membership
      agrees with the per-variant classification in both directions. */
  lemma DivergingClassification(c: Colormap)
    ensures |DivergingColormaps| == 15
    ensures forall i, j :: 0 <= i < j < |DivergingColormaps| ==> DivergingColormaps[i] != DivergingColormaps[j]
    ensures IsDiverging(c) <==> c.InDivergingList()
  {
  }

  /** Number of samples taken from a colormap: `cm_palette(range(256))`. */
  const RampSize: nat := 256

  /** `_make_bokeh_color_palette`: the colormap's 256 lookup-table entries as
      hex strings, together with the diverging flag. `entry(c, k)` stands for
      matplotlib's sampling of entry `k`, scaled to 0-255, truncated and
      written as hex, which this model keeps opaque. */
  function MakeBokehColorPalette(c: Colormap, entry: (Colormap, nat) -> string): (r: (seq<string>, bool))
    ensures |r.0| == RampSize
    ensures forall k :: 0 <= k < RampSize ==> r.0[k] == entry(c, k)
    ensures r.1 <==> c.InDivergingList()
  {
    DivergingClassification(c);
    (seq(RampSize, (k: int) requires 0 <= k < RampSize => entry(c, k)), IsDiverging(c))
  }
}
