/** Colour-domain resolution: which `(low, high)` range the colour bar and
    the normalisation use, and the rejection of negative data under a
    logarithmic scale.

    `ResolveBoundaries` and `ColorScaleMaker` model `_color_scale_maker` in
    src/periodic_trends/_bokeh_tools.py; `_colorScaleMaker` in
    src/periodic_trends.py is the same code. `LegacyDomain` and
    `LegacyColorScaleMaker` model the inline domain of the oldest script,
    periodic_trends.py, which has no explicit bounds. */
module ColorScale {
  import opened Wrappers
  import opened Palette

  /** A numeric data column; None is a NaN entry. */
  type Column = seq<Option<real>>

  /** An effective colour range; None is an unset (None or NaN) end. */
  datatype Domain = Domain(low: Option<real>, high: Option<real>)

  datatype ScaleError =
    | BoundaryUndetermined        // "Something went wrong when determining the boundaries ..."
    | NegativeForLog(datum: real) // "Entry for element {datum} is negative but log-scale is selected"

  /** The legend's colour mapper: `LogColorMapper` or `LinearColorMapper`
      over the bokeh ramp, with the resolved range. */
  datatype ColorMapper = ColorMapper(logarithmic: bool, palette: seq<string>, low: Option<real>, high: Option<real>)

  function Abs(x: real): real {
    if x < 0.0 then -x else x
  }

  function Max(x: real, y: real): real {
    if x >= y then x else y
  }

  predicate Symmetric(d: Domain) {
    d.low.Some? && d.high.Some? && d.low.value == -d.high.value
  }

  /** Every present datum lies in `[low, high]`. */
  predicate Covers(d: Domain, data: Column) {
    d.low.Some? && d.high.Some? &&
    forall i :: 0 <= i < |data| && data[i].Some? ==> d.low.value <= data[i].value <= d.high.value
  }

  predicate NegativeAt(data: Column, i: int) {
    0 <= i < |data| && data[i].Some? && data[i].value < 0.0
  }

  /** Some present datum is `< 0` (a NaN compares false). */
  predicate HasNegative(data: Column) {
    exists i :: 0 <= i < |data| && NegativeAt(data, i)
  }

  /** `Series.min()`: the least present value; None (NaN) when no value is
      present. */
  function DataMin(data: Column): (m: Option<real>)
    ensures m.None? <==> forall i :: 0 <= i < |data| ==> data[i].None?
    ensures m.Some? ==> exists i :: 0 <= i < |data| && data[i] == m
    ensures m.Some? ==> forall i :: 0 <= i < |data| && data[i].Some? ==> m.value <= data[i].value
  {
    if |data| == 0 then None
    else
      var rest := DataMin(data[1..]);
      assert forall i :: 1 <= i < |data| ==> data[i] == data[1..][i - 1];
      match data[0]
      case None => rest
      case Some(x) => if rest.Some? && rest.value < x then rest else Some(x)
  }

  /** `Series.max()`: the greatest present value; None (NaN) when no value
      is present. */
  function DataMax(data: Column): (m: Option<real>)
    ensures m.None? <==> forall i :: 0 <= i < |data| ==> data[i].None?
    ensures m.Some? ==> exists i :: 0 <= i < |data| && data[i] == m
    ensures m.Some? ==> forall i :: 0 <= i < |data| && data[i].Some? ==> data[i].value <= m.value
  {
    if |data| == 0 then None
    else
      var rest := DataMax(data[1..]);
      assert forall i :: 1 <= i < |data| ==> data[i] == data[1..][i - 1];
      match data[0]
      case None => rest
      case Some(x) => if rest.Some? && rest.value > x then rest else Some(x)
  }

  /** Minimum and maximum are both NaN or both numbers, and then ordered. */
  lemma MinMaxOrdered(data: Column)
    ensures DataMin(data).Some? <==> DataMax(data).Some?
    ensures DataMin(data).Some? ==> DataMin(data).value <= DataMax(data).value
  {
    if DataMin(data).Some? {
      var i :| 0 <= i < |data| && data[i] == DataMin(data);
    }
  }

  /** The boundary case analysis of `_color_scale_maker`, in the source's
      order. A NaN data minimum or maximum makes both comparisons of the
      no-bounds diverging case false, so both ends stay unset. */
  function ResolveBoundaries(diverging: bool, data: Column, lower: Option<real>, upper: Option<real>): (r: Result<Domain, ScaleError>)
    // the final `raise ValueError` is unreachable
    ensures r.Ok?
    // both bounds given: symmetric, keeping the larger-magnitude one
    ensures diverging && lower.Some? && upper.Some? ==>
      && Symmetric(r.value)
      && (upper.value >= Abs(lower.value) ==> r.value.high == upper)
      && (upper.value < Abs(lower.value) ==> r.value.low == lower)
    // exactly one bound given: it is kept and the other mirrors it
    ensures diverging && lower.None? && upper.Some? ==> Symmetric(r.value) && r.value.high == upper
    ensures diverging && lower.Some? && upper.None? ==> Symmetric(r.value) && r.value.low == lower
    // no bound given: symmetric around 0 with magnitude max(dataMax, |dataMin|), covering the data
    ensures diverging && lower.None? && upper.None? && DataMin(data).Some? ==>
      && Symmetric(r.value)
      && r.value.high.value == Max(DataMax(data).value, Abs(DataMin(data).value))
      && r.value.low.value <= 0.0 <= r.value.high.value
      && Covers(r.value, data)
    ensures diverging && lower.None? && upper.None? && DataMin(data).None? ==> r.value == Domain(None, None)
    // sequential palette: a given bound is kept, a missing one comes from the data
    ensures !diverging ==>
      && r.value.low == (if lower.Some? then lower else DataMin(data))
      && r.value.high == (if upper.Some? then upper else DataMax(data))
    ensures !diverging && lower.None? && upper.None? && DataMin(data).Some? ==> Covers(r.value, data)
  {
    MinMaxOrdered(data);
    var dataMin, dataMax := DataMin(data), DataMax(data);
    if diverging && lower.Some? && upper.Some? then
      if upper.value >= Abs(lower.value) then Ok(Domain(Some(-upper.value), upper))
      else if upper.value < Abs(lower.value) then Ok(Domain(lower, Some(-lower.value)))
      else Ok(Domain(lower, upper))
    else if diverging && lower.None? && upper.Some? then
      Ok(Domain(Some(-upper.value), upper))
    else if diverging && lower.Some? && upper.None? then
      Ok(Domain(lower, Some(-lower.value)))
    else if diverging && lower.None? && upper.None? then
      if dataMin.Some? && dataMax.Some? && dataMax.value >= Abs(dataMin.value) then
        Ok(Domain(Some(-dataMax.value), dataMax))
      else if dataMin.Some? && dataMax.Some? && dataMax.value < Abs(dataMin.value) then
        Ok(Domain(dataMin, Some(-dataMin.value)))
      else
        Ok(Domain(lower, upper))
    else if !diverging then
      Ok(Domain(if lower.None? then dataMin else lower, if upper.None? then dataMax else upper))
    else
      Err(BoundaryUndetermined)
  }

  /** Explicit diverging bounds are not put in order: lower 5, upper 3 gives
      the range (5, -5). */
  lemma ExplicitBoundsNotOrdered()
    ensures ResolveBoundaries(true, [], Some(5.0), Some(3.0)) == Ok(Domain(Some(5.0), Some(-5.0)))
  {
  }

  /** The log-scale scan over the data: fails on the first negative
      present datum; zero and NaN pass. */
  method CheckLogScale(data: Column) returns (r: Outcome<ScaleError>)
    ensures r.Fail? <==> HasNegative(data)
    ensures r.Fail? ==>
      exists i :: NegativeAt(data, i) && r.error == NegativeForLog(data[i].value) &&
                  forall j :: 0 <= j < i ==> !NegativeAt(data, j)
  {
    for i := 0 to |data|
      invariant forall j :: 0 <= j < i ==> !NegativeAt(data, j)
    {
      if data[i].Some? && data[i].value < 0.0 {
        assert NegativeAt(data, i);
        return Fail(NegativeForLog(data[i].value));
      }
    }
    return Pass;
  }

  /** `_color_scale_maker` (the colour-bar mapper it returns; the per-datum
      RGBA array is opaque here): boundaries first, then the log check. */
  method ColorScaleMaker(data: Column, cmap: Colormap, entry: (Colormap, nat) -> string,
                         logScale: bool, lower: Option<real>, upper: Option<real>)
    returns (r: Result<ColorMapper, ScaleError>)
    ensures r.Err? <==> logScale && HasNegative(data)
    ensures r.Err? ==>
      exists i :: NegativeAt(data, i) && r.error == NegativeForLog(data[i].value) &&
                  forall j :: 0 <= j < i ==> !NegativeAt(data, j)
    ensures r.Ok? ==>
      var (palette, diverging) := MakeBokehColorPalette(cmap, entry);
      var domain := ResolveBoundaries(diverging, data, lower, upper).value;
      r.value == ColorMapper(logScale, palette, domain.low, domain.high)
  {
    var (palette, diverging) := MakeBokehColorPalette(cmap, entry);
    // the boundary analysis cannot fail (ResolveBoundaries ensures Ok)
    var domain := ResolveBoundaries(diverging, data, lower, upper).value;
    if logScale {
      var check := CheckLogScale(data);
      if check.Fail? {
        return Err(check.error);
      }
    }
    return Ok(ColorMapper(logScale, palette, domain.low, domain.high));
  }

  /** The inline domain of periodic_trends.py: for a diverging palette the
      range is symmetric about zero, its bound the larger of the maximum and
      the magnitude of the minimum; otherwise it is the data's own minimum
      and maximum. */
  function LegacyDomain(diverging: bool, data: Column): Domain {
    var dataMin, dataMax := DataMin(data), DataMax(data);
    if diverging then
      var boundary :=
        if dataMax.Some? && dataMin.Some? && dataMax.value >= Abs(dataMin.value) then dataMax
        else if dataMin.Some? then Some(Abs(dataMin.value))
        else None;
      Domain(if boundary.Some? then Some(-boundary.value) else None, boundary)
    else
      Domain(dataMin, dataMax)
  }

  /** The oldest script's domain is the package's domain with no explicit
      bounds: the two ways of writing `(-m, m)` agree. */
  lemma LegacyDomainAgrees(diverging: bool, data: Column)
    ensures ResolveBoundaries(diverging, data, None, None) == Ok(LegacyDomain(diverging, data))
  {
    MinMaxOrdered(data);
  }

  /** The colour-map set-up of periodic_trends.py: the domain, then the log
      check (present in both the diverging and the sequential branch). */
  method LegacyColorScaleMaker(data: Column, cmap: Colormap, entry: (Colormap, nat) -> string, logScale: bool)
    returns (r: Result<ColorMapper, ScaleError>)
    ensures r.Err? <==> logScale && HasNegative(data)
    ensures r.Err? ==>
      exists i :: NegativeAt(data, i) && r.error == NegativeForLog(data[i].value) &&
                  forall j :: 0 <= j < i ==> !NegativeAt(data, j)
    ensures r.Ok? ==>
      var (palette, diverging) := MakeBokehColorPalette(cmap, entry);
      r.value == ColorMapper(logScale, palette, LegacyDomain(diverging, data).low, LegacyDomain(diverging, data).high)
  {
    var (palette, diverging) := MakeBokehColorPalette(cmap, entry);
    var domain := LegacyDomain(diverging, data);
    if logScale {
      var check := CheckLogScale(data);
      if check.Fail? {
        return Err(check.error);
      }
    }
    return Ok(ColorMapper(logScale, palette, domain.low, domain.high));
  }
}
