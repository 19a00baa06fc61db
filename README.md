# periodic_trends: colour scale and cell colouring, in Dafny

periodic_trends draws a periodic table as a heat map. Each element's cell
gets a colour from one numeric value per element. This project models the
part that decides those colours and the grid they sit in:

- which colormaps count as diverging (centred on zero);
- the colour range `(low, high)` of the legend, with or without explicit
  bounds, and the rejection of negative data under a logarithmic scale;
- which input columns hold the element symbols and the data;
- the axis labels after groups and periods are removed, the lanthanoid and
  actinoid rows of the extended layout, and the canvas rescale;
- the colouring loop, with its case-insensitive symbol lookup, its
  duplicate handling and a stale `element_index` that survives an unknown
  symbol; the thresholds; and the highlight of special elements;
- the reindexing of the data by reference symbol that the package
  plotters apply first, and what it implies for the loop;
- the command-line script `ptable_trends.py`: option parsing and
  validation, palette choice, whitespace-stripped label removal, the CSV
  row split, its min/max range, and its last-writer-wins loop.

The repository holds four copies of this core. The modules follow the
package version (`src/periodic_trends/_bokeh_tools.py`,
`src/periodic_trends/core.py`) and record where the older copies differ.
`Plot.Variant` names the three plotters and the `Script` module covers the
script.

Modules, one per file:

- `Wrappers`: Option, Result, Outcome.
- `PyText`: the Python built-ins the core relies on. These are
  `str.lower` (ASCII), `str.strip`, `str(int)` and `list.remove`.
- `Palette`: colormap identities, the diverging classification and the
  256-entry ramp.
- `ColorScale`: data minimum/maximum, boundary resolution, the
  log-scale check and the legend mapper.
- `Columns`: `_input_checker`.
- `Elements`: reference rows, case-insensitive lookup, lanthanoid and
  actinoid relabelling.
- `Layout`: axis labels, their removal, and the rescale.
- `Cells`: the colouring loops, the highlight and the reindex.
- `Script`: `ptable_trends.py` up to its colour list.
- `Plot`: the composed plotter, per variant.

A NaN value is `None` in an `Option<real>`. The reference table is passed
to each call, and the extended relabelling works on a copy of it.

## Model

| member | source | states |
|---|---|---|
| Palette.DivergingClassification | src/periodic_trends/_bokeh_tools.py:81-97 | The list of diverging colormaps has 15 distinct entries. Membership in it agrees with the per-colormap classification, in both directions. |
| Palette.MakeBokehColorPalette | src/periodic_trends/_bokeh_tools.py:79-98 | The ramp has 256 entries. Entry k is the colormap's k-th sample. The flag is true exactly for the fifteen listed maps; reversed and other diverging maps get the sequential range. The same code appears at `src/periodic_trends.py:28-35`, `periodic_trends.py:27-34`. |
| ColorScale.DataMin | src/periodic_trends/_bokeh_tools.py:25 | The minimum is NaN exactly when every datum is NaN. Otherwise it is a datum and bounds every present datum from below. |
| ColorScale.DataMax | src/periodic_trends/_bokeh_tools.py:26 | The maximum is NaN exactly when every datum is NaN. Otherwise it is a datum and bounds every present datum from above. |
| ColorScale.MinMaxOrdered | src/periodic_trends/_bokeh_tools.py:25-26 | The minimum and maximum are both NaN or both numbers, and then min <= max. |
| ColorScale.ResolveBoundaries | src/periodic_trends/_bokeh_tools.py:28-54 | The case analysis never reaches its `raise`. Cases for a diverging map: (1) both bounds given: the result is symmetric, keeping upper if upper >= abs(lower), else lower; (2) one bound given: it is kept and the other is its negation; (3) no bound given: the result is (-m, m) with m = max(max, abs(min)), so low <= 0 <= high and every datum is covered; all-NaN data leaves both ends unset. A sequential map keeps the given bounds and fills missing ones from the data's min and max. The same code appears at `src/periodic_trends.py:49-71`. |
| ColorScale.ExplicitBoundsNotOrdered | src/periodic_trends/_bokeh_tools.py:31-38 | Explicit diverging bounds are not put in order: lower 5 with upper 3 gives (5, -5). |
| ColorScale.CheckLogScale | src/periodic_trends/_bokeh_tools.py:56-61 | The scan fails exactly when some present datum is negative, and reports the first one. Zero and NaN pass. The same code appears at `src/periodic_trends.py:73-78`. |
| ColorScale.ColorScaleMaker | src/periodic_trends/_bokeh_tools.py:16-76 | It fails exactly under a log scale with a negative datum, and the error carries the first negative datum in data order. Otherwise it returns the mapper over the colormap's ramp with the resolved range. The log-scale check is the only failure the model has. |
| ColorScale.LegacyDomainAgrees | periodic_trends.py:158-196 | `ColorScale.LegacyDomain`, the oldest script's inline range, equals the package's range with no explicit bounds: (-b, b) with b = max(max, abs(min)) for a diverging map, and (min, max) otherwise. |
| ColorScale.LegacyColorScaleMaker | periodic_trends.py:157-197 | Both branches of the oldest script reject negative data under a log scale, naming the first negative datum, and otherwise give the mapper over the inline range. |
| Columns.InputChecker | src/periodic_trends/_bokeh_tools.py:105-149 | No `.columns` attribute is an error. More than two columns: a missing name, then a name that is not a label, is an error, checked in source order. Exactly two columns: no names give the two labels in order; one valid name gets the other label as its partner, so the pair is the two labels; no valid name is an error. Fewer than two columns return the inputs unchanged. With two or more columns, success means both names are labels. |
| Elements.FirstMatch | src/periodic_trends/core.py:194-198 | The lookup finds the first reference row whose symbol equals the data symbol ignoring case. It finds nothing exactly when no row matches. |
| Elements.FirstMatchOwnRow | src/periodic_trends/core.py:194-198 | With case-distinct reference symbols, each reference symbol finds its own row. |
| Elements.FirstMatchIgnoresCase | src/periodic_trends/core.py:194-196 | Symbols that differ only in ASCII case find the same row. |
| Elements.RelabelExtended | src/periodic_trends/core.py:163-173 | Rows 56..69 become period "La" and rows 88..101 period "Ac", with groups "4".."17" in order. Every other row is unchanged. The same code appears at `src/periodic_trends.py:225-236`, `periodic_trends.py:144-155`, `ptable_trends.py:115-126`. |
| Elements.ExtendedRowFacts | src/periodic_trends/core.py:163-173 | Specifies `Elements.ExtendedRow`, the relabelled row. Relabelling never changes a symbol. It states the period and group of each of the 28 moved rows and leaves every other row as it was. |
| Elements.ExtendedCellsDistinct | src/periodic_trends/core.py:163-173 | The 28 moved rows land in 28 different (period, group) cells. |
| Layout.GroupRange | src/periodic_trends/core.py:146 | There are 18 group labels. |
| Layout.LabelListsDistinct | src/periodic_trends/core.py:145-146 | The period labels are "1".."7". Neither axis repeats a label. |
| Layout.GroupLabelOf | src/periodic_trends/core.py:146-151 | `str(g)` is a group label exactly when 1 <= g <= 18, so `remove(str(g))` fails for any other g. |
| Layout.RemoveLabels | src/periodic_trends/core.py:149-154 | The removal loop computes the successive `list.remove` calls and stops at the first absent label. |
| Layout.RemoveAllFailurePersists | src/periodic_trends/core.py:149-154 | Once a removal fails, the whole removal fails. |
| Layout.RemoveAllIsFilter | src/periodic_trends/core.py:149-154 | Specifies `Layout.RemoveAll`, the successive `list.remove` calls. Take a list of distinct labels. Removal succeeds exactly when the labels to remove are distinct members of the list. The result is then the list without them, in the original order. |
| Layout.RescaleFullTable | src/periodic_trends/core.py:176-178 | Specifies `Layout.Rescale`. With nothing removed and the three extra rows shown, the rescale keeps width and height. Removing rows or columns never enlarges a non-negative canvas. |
| Cells.Initial | src/periodic_trends/core.py:190 | The loop starts with every one of the reference elements' cells blank, no element index bound and no warning. |
| Cells.NewColorCases | src/periodic_trends/core.py:203-210 | NaN gives blank. Then value <= under_value gives under_color, taking precedence over the over threshold. Then value >= over_value gives over_color. Only a value strictly between the thresholds that are set gets its scaled colour. |
| Cells.StepIndex | src/periodic_trends/core.py:194-200 | With `Cells.StepWrites`, specifies `Cells.Step`, one iteration of the loop. A known symbol sets `element_index` to its first match. An unknown symbol warns and keeps the previous `element_index`. The step fails only if neither exists. |
| Cells.StepWrites | src/periodic_trends/core.py:201-210 | A row changes no cell except the one at `element_index`. A non-blank cell stays unchanged and the row warns "Multiple entries". A blank cell, including one set back to blank, takes the row's colour. |
| Cells.PassUpTo | src/periodic_trends/core.py:193-210 | The colour list keeps one entry per reference element, and `element_index` always points into the table. |
| Cells.PassFailurePersists | src/periodic_trends/core.py:193-201 | Once the loop has failed on an unbound `element_index`, it stays failed. |
| Cells.HighlightFacts | src/periodic_trends/core.py:212-215 | Specifies `Cells.Highlight`, the special pass. Every cell whose symbol is listed (exact, case-sensitive) gets the special colour, and every other cell keeps its colour. An empty list changes nothing, and painting twice equals painting once. |
| Cells.ColorElements | src/periodic_trends/core.py:189-215 | The loop and the highlight, writing the list in place, compute the per-row fold and then the highlight. The method fails exactly when the fold fails. The same code appears at `src/periodic_trends.py:245-271`, `periodic_trends.py:199-225`. |
| Cells.UnnamedCellStaysBlank | src/periodic_trends/core.py:190-210 | A reference element that no row names stays blank, even with stale indices. |
| Cells.FirstWriterWins | src/periodic_trends/core.py:201-202 | The first row naming an element fixes its colour for good when that colour is not blank. Later duplicates and stale-index rows leave it alone. |
| Cells.UnknownFirstSymbolFails | src/periodic_trends/core.py:197-201 | If the first row's symbol is unknown, both loop styles read an unbound `element_index` and fail. |
| Cells.Reindex | src/periodic_trends/core.py:141-142 | Reindexing fails exactly on duplicate input labels. Otherwise it gives one row per reference element, in reference order, carrying the value of the input row with exactly that label, or NaN when no row has it. |
| Cells.ValueOfFound | src/periodic_trends/core.py:141-142 | The value looked up for a label is that of the first input row carrying it. |
| Cells.ValueOfIgnoresOtherLabels | src/periodic_trends/core.py:141-142 | An input row whose label differs from a reference symbol, even only in case, contributes nothing after reindexing. |
| Cells.AlignedPassSucceeds | src/periodic_trends/core.py:193-200 | On reindexed rows every symbol is found, so the loop never fails. |
| Cells.AlignedRowsLandInPlace | src/periodic_trends/core.py:193-210 | Rows are aligned with case-distinct reference symbols. Then row i lands in cell i, which is still blank, so cell i gets row i's colour and no warning fires. |
| Cells.ReindexedPassLandsInPlace | src/periodic_trends/core.py:141-210 | After reindexing, the loop succeeds with no warning. Each element's cell gets the colour due to the input row labelled exactly with its symbol. |
| Cells.ScriptColorElements | ptable_trends.py:144-158 | The script's list is built by appending blanks. Its loop computes the last-writer-wins fold. |
| Cells.ScriptStepKnown | ptable_trends.py:150-158 | A row with a known symbol binds its first match and overwrites that cell with its own colour. It warns "Multiple entries" exactly when the cell was already coloured. |
| Cells.LastWriterWins | ptable_trends.py:156-158 | With `Cells.ScriptStepKnown` and `Cells.StaleIndexOverwrites`, specifies `Cells.ScriptStep`, one iteration of the script's loop. With all symbols known, each cell ends with the scaled colour of the last row naming it, or blank if no row names it. |
| Cells.StaleIndexOverwrites | ptable_trends.py:150-158 | In the script, an unknown symbol after a known one warns and then overwrites the previous row's cell with its own colour. |
| Script.ParseExtended | ptable_trends.py:46-51 | `--extended` is accepted exactly when its ASCII lower case is "true" or "false", and then means true exactly for "true". |
| Script.ExtendedChoices | ptable_trends.py:28-29 | All four spellings the parser admits are accepted, with the intended meanings, so the `raise` at line 51 cannot be reached. |
| Script.DefaultIfFalsy | ptable_trends.py:59-62 | The result is never 0. A given non-zero value is kept. An absent value or 0 becomes 12. |
| Script.ValidateArgs | ptable_trends.py:65-70 | Validation passes exactly when width >= 0, alpha is NaN or 0 <= alpha <= 1, and any given colour-bar height is >= 0. A zero width passes, and so does a NaN alpha, since both comparisons with NaN are false. The first failing check decides the error. |
| Script.CmapChoice | ptable_trends.py:73-84 | Choices 0, 1, 2 and 3 give plasma, inferno, magma and viridis respectively, each with the matching `*256` palette name. All four are sequential maps. Any other choice leaves the palette unbound. |
| Script.CmapChoiceInjective | ptable_trends.py:73-84 | Different choices give different colormaps. |
| Script.ScriptRemoveLabels | ptable_trends.py:91-98 | Each label is stripped of Python whitespace before `list.remove`. |
| Script.ReadColumns | ptable_trends.py:101-109 | Success requires every row to have two fields and a numeric second field; a short row is reported before any conversion. With every row long enough, a failure is the `ValueError` of the first second field that is not a number, naming that field. On success both lists have one entry per row, so the length test at line 108 cannot fire. |
| Script.FirstNegative | ptable_trends.py:134-135 | It finds the first negative value, or reports that none exists. |
| Script.ScriptScaleAsWritten | ptable_trends.py:133-140 | As written, a negative value under the log scale ends in the string-plus-float `TypeError`. Every other input gives the same result as `Script.ScriptScale`; matplotlib's own refusals are not modelled, so these are the only failures the model has. |
| Script.NegativeLogMessage | ptable_trends.py:136-137 | [2.0, -1.0] under `--log_scale 1` gives a `TypeError` as written. The corrected version reports -1.0. |
| Script.ScriptScaleFacts | ptable_trends.py:129-140 | Specifies `Script.ScriptScale`, the corrected range. Among the failures the model has, it fails exactly on empty data or a negative value under the log scale, reporting the first negative value. Otherwise it is (min, max): both occur in the data and every value lies between them. |
| Script.ScriptColorScale | ptable_trends.py:129-140 | The branch on `log_scale` scans for a negative value and then takes min and max. It computes the corrected range. |
| Plot.PeriodAxisVariants | src/periodic_trends/core.py:157-160 | Specifies `Plot.PeriodAxis`. The package keeps the remaining periods and appends "blank", "La", "Ac" only for the extended layout. The two earlier plotters (`src/periodic_trends.py:219-221`, `periodic_trends.py:138-140`) lay out the axis as the package's extended layout whatever `extended` is. |
| Plot.AxesOf | src/periodic_trends/core.py:145-178 | The axes exist exactly when both removals succeed. |
| Plot.PlotAxes | src/periodic_trends/core.py:145-178 | The removal loops, the appends and the rescale compute those axes. |
| Plot.PlaceCells | src/periodic_trends/core.py:157-173 | The figure's rows are the reference rows, relabelled when extended. No symbol changes. |
| Plot.ReindexedColumn | src/periodic_trends/core.py:181-182 | The colour scale sees one value per reference element: the value of the first input row labelled exactly with its symbol, NaN when no row is. With distinct labels it is the reindexed frame's value column. |
| Plot.ColorCells | src/periodic_trends/core.py:189-215 | On reindexed rows with case-distinct symbols, there is no warning. Each cell gets its own element's colour, or the special colour if listed. |
| Plot.Plotter | src/periodic_trends/core.py:141-215 | Failures come in source order: duplicate labels, then an absent group or period, then a negative datum under a log scale; these are the only failures the model has. A log-scale failure reports the first negative datum of the reindexed column. On success it states the axes and canvas (no height for the oldest script), the mapper over the reindexed column with the variant's bounds, and the placed rows. With case-distinct reference symbols, every cell shows its own element's colour and no warning fires. |
| Plot.CompactLayoutHeight | src/periodic_trends/core.py:157-178 | Consider the package's compact layout with nothing removed. It shows seven period rows and shrinks the requested height to seven tenths. The earlier plotters always show ten rows at the requested width. The single-file package keeps the requested height. The oldest script takes no height, so its figure keeps bokeh's default height. |
| PyText.Strip | ptable_trends.py:93 | The result is the input without leading and trailing whitespace. If not empty, it starts and ends with a non-space character. |
| PyText.StrInjective | src/periodic_trends/core.py:146 | `str` on integers is injective. |
| PyText.RemoveFirst | src/periodic_trends/core.py:151 | `list.remove` fails exactly on an absent element. Otherwise it deletes its first occurrence. |

## Left out

- Rendering (figure, rectangles, text, colour bar, HTML output) is not modelled: it is presentation.
- Matplotlib's colormap sampling, normalisation and `to_hex` are not modelled: they are floating-point code in foreign libraries. They appear as the opaque parameters `entry` and `scaled`.
- The `data_text` formatting (src/periodic_trends/core.py:218-235) is float formatting for display.
- CSV reading and argparse's own checks are I/O. `Script.ReadColumns` takes the rows and a `parse` function, and `Script.ScriptColorScale` takes a boolean `log_scale` (the parser admits only 0 and 1).
- The package reads `elements` from a shared module and relabels it in place, so a later call sees an already relabelled table. The model gives each call its own table, and `Plot.PlaceCells` relabels a copy. Cross-call aliasing is not captured.
- Elements.RelabelExtended: requires a table of at least 102 rows (bokeh's has 118). On a shorter table pandas would add rows; that is not modelled.
- PyText.Lower: ASCII only. Python's `str.lower` also folds non-ASCII letters.
- PyText.Strip: takes Python's whitespace as a fixed list of code points, with no Unicode database.
- Python's `None` and NaN bounds are both `None`. A NaN passed as an explicit bound or threshold is not distinguished from an absent one.
- `Script.ScriptColorScale` models the script's values as reals with no NaN. A "nan" entry in the CSV is not modelled.
- `set_index` failing on a missing element column (a `KeyError`) is not modelled. Column names are resolved by `Columns.InputChecker`.
- The `elements["period"].astype(str)` conversions and `str(x)` of groups in the data source are already strings in the model.
- The script's `cbar_height`, `cbar_standoff`, `alpha` and `width` only reach rendering. Only their validation and defaults are modelled.
- test.py is only a driver and is not part of this model.
- ColorScale.ColorScaleMaker: matplotlib's own refusals are not modelled. `Normalize` rejects explicit bounds with the minimum above the maximum, and `LogNorm` rejects a non-positive bound, which every diverging colormap under a log scale and data whose minimum is 0 produce. They happen in foreign floating-point code, so the model's only scale failure is the negative-datum check.
- ColorScale.LegacyColorScaleMaker: the same matplotlib refusals are not modelled, for the same reason.
- Plot.Plotter: the same matplotlib refusals are not modelled, so its list of failures omits them.
- Script.ScriptScaleAsWritten: matplotlib's `LogNorm` refusal ("Invalid vmin or vmax") of a zero minimum under `--log_scale 1`, e.g. values [0.0, 1.0], is not modelled; it happens in foreign floating-point code when the colours are computed.
- Script.ScriptScale: the same `LogNorm` refusal of a zero minimum is not modelled, so the corrected range is returned for such data.
- Script.ScriptColorScale: the same `LogNorm` refusal is not modelled, for the same reason.
- After the exact reindex, only exact reference symbols reach the loop. The loop's case-insensitive matching, duplicate warning and unbound-index failure then never fire in the three package-style plotters; they are modelled because `ptable_trends.py` feeds raw symbols to the same loop shape.

## Findings

| source | as written | input that shows it | evidently intended | confidence | as-written member | corrected member |
|---|---|---|---|---|---|---|
| ptable_trends.py:136-137 | `'Entry for element '+datum+...` joins a string and a float, so the `raise ValueError` itself fails with a `TypeError` | a CSV holding a negative value, run with `--log_scale 1` (e.g. values [2.0, -1.0]) | reject with the message naming the negative datum, as the package versions do with an f-string | high, by reading; not executed | Script.ScriptScaleAsWritten | Script.ScriptScale |
