/** The colouring part of the three plotter functions, composed from the
    pieces of the other modules: reindex the data by the reference symbols,
    remove the requested groups and periods, lay out the lanthanoid and
    actinoid rows, rescale the canvas, build the legend's colour mapper and
    colour the cells.

    The three plotters differ only in what `Variant` records: the package
    (src/periodic_trends/core.py) adds the three extra period rows only for
    the extended layout and can rescale the canvas; the earlier single-file
    package (src/periodic_trends.py) and the oldest script
    (periodic_trends.py) always add them and never rescale; the oldest
    script has no explicit colour bounds. */
module Plot {
  import opened Wrappers
  import opened PyText
  import opened Palette
  import opened ColorScale
  import opened Elements
  import opened Layout
  import opened Cells

  datatype Variant =
    | Package        // src/periodic_trends/core.py
    | SingleFile     // src/periodic_trends.py
    | Oldest         // periodic_trends.py (no height parameter: the figure keeps bokeh's default)

  /** The plotter's keyword arguments that reach the colouring. */
  datatype PlotOptions = PlotOptions(
    extended: bool, periodsRemove: seq<int>, groupsRemove: seq<int>,
    rescaleCanvas: bool, width: int, height: int,
    cmap: Colormap, logScale: bool, colorMin: Option<real>, colorMax: Option<real>,
    policy: CellPolicy, special: seq<string>, specialColor: string)

  datatype PlotError =
    | DuplicateElementLabels // pandas refuses to reindex duplicate element labels
    | LabelNotFound          // `list.remove` of a group or period that is not shown
    | Scale(error: ScaleError)

  /** What the figure is drawn from. `cells` are the reference rows placing
      each element (period, group), `colors` their fill colours. */
  datatype Figure = Figure(
    periodLabels: seq<string>, groupLabels: seq<string>,
    width: int, height: Option<int>, mapper: ColorMapper,
    cells: Table, colors: seq<string>, warnings: seq<Warning>)

  function StrAll(xs: seq<int>): seq<string> {
    seq(|xs|, i requires 0 <= i < |xs| => Str(xs[i]))
  }

  /** The period axis after removal: the three extra rows are appended
      except by the package's compact layout. */
  function PeriodAxis(variant: Variant, extended: bool, kept: seq<string>): seq<string> {
    if variant == Package && !extended then kept else kept + SeriesRows
  }

  /** The two earlier plotters lay out the period axis as the package does
      with the extended layout, whatever their `extended` flag says; only
      the package's compact layout leaves the kept periods alone. */
  lemma PeriodAxisVariants(extended: bool, kept: seq<string>)
    ensures PeriodAxis(SingleFile, extended, kept) == PeriodAxis(Package, true, kept)
    ensures PeriodAxis(Oldest, extended, kept) == PeriodAxis(Package, true, kept)
    ensures PeriodAxis(Package, true, kept)[..|kept|] == kept
    ensures PeriodAxis(Package, true, kept)[|kept|..] == ["blank", "La", "Ac"]
    ensures PeriodAxis(Package, false, kept) == kept
  {
    assert (kept + SeriesRows)[..|kept|] == kept;
    assert (kept + SeriesRows)[|kept|..] == SeriesRows;
  }

  /** The colour bounds each variant honours: the oldest script has none. */
  function Bounds(variant: Variant, opts: PlotOptions): (Option<real>, Option<real>) {
    if variant == Oldest then (None, None) else (opts.colorMin, opts.colorMax)
  }

  /** The data column the colour scale sees: one value per reference
      element, taken from the first input row labelled exactly with its
      symbol, NaN when no row is; with distinct labels it is the value
      column of the reindexed frame. */
  function ReindexedColumn(table: Table, rows: seq<DataRow>): (c: Column)
    ensures |c| == |table|
    ensures forall i, j ::
      (0 <= i < |table| && 0 <= j < |rows| && rows[j].symbol == table[i].symbol &&
       forall k :: 0 <= k < j ==> rows[k].symbol != rows[j].symbol) ==> c[i] == rows[j].value
    ensures forall i :: 0 <= i < |table| && (forall j :: 0 <= j < |rows| ==> rows[j].symbol != table[i].symbol) ==>
      c[i] == None
    ensures Reindex(table, rows).Some? ==> forall i :: 0 <= i < |table| ==> c[i] == Reindex(table, rows).value[i].value
  {
    ValueOfFirst(rows);
    AbsentLabels(table, rows);
    seq(|table|, i requires 0 <= i < |table| => ValueOf(rows, table[i].symbol))
  }

  /** The grid's axes and canvas: group and period removal (groups
      first), the extra period rows, and the package's optional rescale.
      None is the `ValueError` of a label that is not shown. A height of
      None is bokeh's default, left by the oldest script, which takes no
      height. */
  datatype Axes = Axes(periodLabels: seq<string>, groupLabels: seq<string>, width: int, height: Option<int>)

  function AxesOf(variant: Variant, opts: PlotOptions): (r: Option<Axes>)
    ensures r.Some? <==>
      RemoveAll(GroupRange(), StrAll(opts.groupsRemove)).Some? &&
      RemoveAll(PeriodLabels, StrAll(opts.periodsRemove)).Some?
  {
    var groups := RemoveAll(GroupRange(), StrAll(opts.groupsRemove));
    var kept := RemoveAll(PeriodLabels, StrAll(opts.periodsRemove));
    if groups.None? || kept.None? then None
    else
      var periods := PeriodAxis(variant, opts.extended, kept.value);
      if variant == Package && opts.rescaleCanvas then
        Some(Axes(periods, groups.value, Rescale(opts.width, opts.height, |periods|, |groups.value|).0,
                                         Some(Rescale(opts.width, opts.height, |periods|, |groups.value|).1)))
      else Some(Axes(periods, groups.value, opts.width, if variant == Oldest then None else Some(opts.height)))
  }

  /** The axis part of the plotters, with the removal loops. */
  method PlotAxes(variant: Variant, opts: PlotOptions) returns (r: Option<Axes>)
    ensures r == AxesOf(variant, opts)
  {
    var groups := RemoveLabels(GroupRange(), StrAll(opts.groupsRemove));
    if groups.None? {
      return None;
    }
    var kept := RemoveLabels(PeriodLabels, StrAll(opts.periodsRemove));
    if kept.None? {
      return None;
    }
    var periods := PeriodAxis(variant, opts.extended, kept.value);
    var width, height := opts.width, if variant == Oldest then None else Some(opts.height);
    if variant == Package && opts.rescaleCanvas {
      height := Some(opts.height * |periods| / 10);
      width := opts.width * (|groups.value| + 2) / 20;
    }
    return Some(Axes(periods, groups.value, width, height));
  }

  /** The reference rows as the figure places them: relabelled in a copy
      of the table when the layout is extended. */
  method PlaceCells(table: Table, extended: bool) returns (cells: Table)
    requires extended ==> |table| >= ActinoidFirst + SeriesLength
    ensures |cells| == |table|
    ensures forall i :: 0 <= i < |table| ==> cells[i] == if extended then ExtendedRow(i, table[i]) else table[i]
    ensures forall i :: 0 <= i < |table| ==> cells[i].symbol == table[i].symbol
  {
    cells := table;
    if extended {
      var elements := new ElementRecord[|table|](i requires 0 <= i < |table| => table[i]);
      RelabelExtended(elements);
      cells := elements[..];
    }
    forall i | 0 <= i < |table|
      ensures cells[i].symbol == table[i].symbol
    {
      ExtendedRowFacts(i, table[i]);
    }
  }

  /** The colouring half of `plotter` (and `plotter` of the two earlier
      files). `entry` is matplotlib's colormap sampling and `scaled(i)` the
      hex colour matplotlib gives reindexed row `i`; both stay opaque. The
      extended layout needs the reference table to reach row 101. */
  method Plotter(variant: Variant, table: Table, rows: seq<DataRow>, opts: PlotOptions,
                 entry: (Colormap, nat) -> string, scaled: nat -> string)
    returns (r: Result<Figure, PlotError>)
    requires opts.extended ==> |table| >= ActinoidFirst + SeriesLength
    // the failures, in the order they can happen
    ensures DuplicateLabels(rows) ==> r == Err(DuplicateElementLabels)
    ensures !DuplicateLabels(rows) && AxesOf(variant, opts).None? ==> r == Err(LabelNotFound)
    ensures !DuplicateLabels(rows) && AxesOf(variant, opts).Some? && r.Err? ==> r.error.Scale?
    ensures r.Err? && r.error.Scale? ==>
      var column := ReindexedColumn(table, rows);
      && opts.logScale
      && exists i :: NegativeAt(column, i) && r.error.error == NegativeForLog(column[i].value) &&
                     forall j :: 0 <= j < i ==> !NegativeAt(column, j)
    ensures r.Ok? <==>
      !DuplicateLabels(rows) && AxesOf(variant, opts).Some? &&
      !(opts.logScale && HasNegative(ReindexedColumn(table, rows)))
    // the figure
    ensures r.Ok? ==>
      var fig := r.value;
      var axes := AxesOf(variant, opts).value;
      var (palette, diverging) := MakeBokehColorPalette(opts.cmap, entry);
      var domain := ResolveBoundaries(diverging, ReindexedColumn(table, rows), Bounds(variant, opts).0, Bounds(variant, opts).1).value;
      && Axes(fig.periodLabels, fig.groupLabels, fig.width, fig.height) == axes
      && fig.mapper == ColorMapper(opts.logScale, palette, domain.low, domain.high)
      && |fig.cells| == |table| && |fig.colors| == |table|
      && (forall i :: 0 <= i < |table| ==>
            fig.cells[i] == if opts.extended then ExtendedRow(i, table[i]) else table[i])
    // every element's cell shows its own datum, unless it is highlighted
    ensures r.Ok? && CaseDistinct(table) ==>
      && r.value.warnings == []
      && forall i :: 0 <= i < |table| ==>
           r.value.colors[i] ==
             if table[i].symbol in opts.special then opts.specialColor
             else NewColor(ValueOf(rows, table[i].symbol), i, opts.policy, scaled)
  {
    var reindexed := Reindex(table, rows);
    if reindexed.None? {
      return Err(DuplicateElementLabels);
    }
    var aligned := reindexed.value;
    var axes := PlotAxes(variant, opts);
    if axes.None? {
      return Err(LabelNotFound);
    }
    var cells := PlaceCells(table, opts.extended);
    var column := ReindexedColumn(table, rows);
    var scale;
    if variant == Oldest {
      LegacyDomainAgrees(MakeBokehColorPalette(opts.cmap, entry).1, column);
      scale := LegacyColorScaleMaker(column, opts.cmap, entry, opts.logScale);
    } else {
      scale := ColorScaleMaker(column, opts.cmap, entry, opts.logScale, opts.colorMin, opts.colorMax);
    }
    if scale.Err? {
      return Err(Scale(scale.error));
    }
    var colors, warnings := ColorCells(table, cells, rows, aligned, opts, scaled);
    var fig := Figure(axes.value.periodLabels, axes.value.groupLabels, axes.value.width, axes.value.height,
                      scale.value, cells, colors, warnings);
    return Ok(fig);
  }

  /** The colouring loop and the highlight over the reindexed rows: it
      cannot fail, and with case-distinct reference symbols it warns about
      nothing and gives each element its own row's colour. */
  method ColorCells(table: Table, cells: Table, rows: seq<DataRow>, aligned: seq<DataRow>,
                    opts: PlotOptions, scaled: nat -> string)
    returns (colors: seq<string>, warnings: seq<Warning>)
    requires Reindex(table, rows) == Some(aligned)
    requires |cells| == |table| && forall i :: 0 <= i < |table| ==> cells[i].symbol == table[i].symbol
    ensures |colors| == |table|
    ensures CaseDistinct(table) ==>
      && warnings == []
      && forall i :: 0 <= i < |table| ==>
           colors[i] ==
             if table[i].symbol in opts.special then opts.specialColor
             else NewColor(ValueOf(rows, table[i].symbol), i, opts.policy, scaled)
  {
    assert Aligned(cells, aligned);
    AlignedPassSucceeds(cells, aligned, |aligned|, opts.policy, scaled);
    var pass := ColorElements(cells, aligned, opts.policy, scaled, opts.special, opts.specialColor);
    if CaseDistinct(table) {
      assert CaseDistinct(cells);
      AlignedRowsLandInPlace(cells, aligned, |aligned|, opts.policy, scaled);
    }
    colors, warnings := pass.value.0, pass.value.1;
  }

  /** The package's compact layout (not extended, nothing removed) shows
      seven period rows and shrinks a requested canvas height to seven
      tenths, while the two earlier plotters always show ten rows: the
      single-file package at the requested height, the oldest script at
      bokeh's default height. */
  lemma CompactLayoutHeight(opts: PlotOptions)
    requires opts.periodsRemove == [] && opts.groupsRemove == [] && !opts.extended && opts.rescaleCanvas
    ensures AxesOf(Package, opts) == Some(Axes(PeriodLabels, GroupRange(), opts.width, Some(opts.height * 7 / 10)))
    ensures AxesOf(SingleFile, opts) == Some(Axes(PeriodLabels + SeriesRows, GroupRange(), opts.width, Some(opts.height)))
    ensures AxesOf(Oldest, opts) == Some(Axes(PeriodLabels + SeriesRows, GroupRange(), opts.width, None))
  {
  }
}
