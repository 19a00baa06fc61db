/** The command-line script ptable_trends.py up to the colour list: option
    interpretation and validation, the palette choice, the stripped label
    removal, the split of the CSV rows into symbols and values, and the
    colour range with its logarithmic-scale check. The colouring loop itself
    is `Cells.ScriptColorElements`. */
module Script {
  import opened Wrappers
  import opened PyText
  import opened Palette
  import opened ColorScale
  import opened Layout

  datatype ScriptError =
    | InvalidExtended            // "Invalid keyword for --extended"
    | NegativeWidth              // "--width must be a positive integer"
    | AlphaOutOfRange            // "--alpha must be between 0 and 1"
    | NegativeCbarHeight         // "--cbar_height must be a positive integer"
    | UnboundPalette             // `cmap` never assigned (a choice outside 0..3)
    | LabelNotFound              // `list.remove` of an absent label
    | MissingField               // `row[0]` or `row[1]` of a short CSV row
    | NotAFloat(field: string)   // `float(...)` of a non-numeric field
    | EmptyData                  // `min([])`
    | ConcatenationTypeError     // `'...' + datum` with a float `datum`
    | NegativeUnderLog(datum: real)

  /** `args.extended.lower()` against "true" and "false". */
  function ParseExtended(s: string): (r: Result<bool, ScriptError>)
    ensures r.Ok? <==> Lower(s) == "true" || Lower(s) == "false"
    ensures r.Err? ==> r.error == InvalidExtended
    ensures r.Ok? ==> r.value == (Lower(s) == "true")
  {
    if Lower(s) == "true" then Ok(true)
    else if Lower(s) == "false" then Ok(false)
    else Err(InvalidExtended)
  }

  /** The four spellings the argument parser admits are all accepted, the
      capitalised ones meaning the same as the lower-case ones, so the
      `raise` branch is unreachable from the command line. */
  lemma ExtendedChoices()
    ensures ParseExtended("True") == ParseExtended("true") == Ok(true)
    ensures ParseExtended("False") == ParseExtended("false") == Ok(false)
  {
    assert Lower("True") == "true";
    assert Lower("False") == "false";
  }

  /** The `--cbar_standoff` and `--cbar_fontsize` defaults: a falsy value,
      absent or zero, becomes 12. */
  function DefaultIfFalsy(x: Option<int>): (r: int)
    ensures r != 0
    ensures x.Some? && x.value != 0 ==> r == x.value
    ensures x.None? || x.value == 0 ==> r == 12
  {
    if x.None? || x.value == 0 then 12 else x.value
  }

  /** The three argument checks, in order. A width or colour-bar height of 0
      passes although the messages ask for a positive integer, and a NaN
      alpha (None) passes because both of its comparisons are false. */
  function ValidateArgs(width: int, alpha: Option<real>, cbarHeight: Option<int>): (r: Outcome<ScriptError>)
    ensures r.Pass? <==>
      width >= 0 && (alpha.None? || 0.0 <= alpha.value <= 1.0) && (cbarHeight.None? || cbarHeight.value >= 0)
    ensures width < 0 ==> r == Fail(NegativeWidth)
    ensures width >= 0 && alpha.Some? && !(0.0 <= alpha.value <= 1.0) ==> r == Fail(AlphaOutOfRange)
    ensures width >= 0 && (alpha.None? || 0.0 <= alpha.value <= 1.0) && r.Fail? ==> r == Fail(NegativeCbarHeight)
  {
    if width < 0 then Fail(NegativeWidth)
    else if alpha.Some? && (alpha.value < 0.0 || alpha.value > 1.0) then Fail(AlphaOutOfRange)
    else if cbarHeight.Some? && cbarHeight.value < 0 then Fail(NegativeCbarHeight)
    else Pass
  }

  /** The bokeh palette name of each choosable colormap. */
  function BokehName(c: Colormap): string {
    match c
    case Plasma => "Plasma256"
    case Inferno => "Inferno256"
    case Magma => "Magma256"
    case Viridis => "Viridis256"
    case _ => ""
  }

  /** `--cmap_choice`: 0 Plasma, 1 Inferno, 2 Magma, 3 Viridis; any other
      number leaves `cmap` unassigned. */
  function CmapChoice(n: int): (r: Result<(Colormap, string), ScriptError>)
    ensures r.Ok? <==> 0 <= n < 4
    ensures r.Err? ==> r.error == UnboundPalette
    ensures r.Ok? ==> r.value.1 == BokehName(r.value.0)
    ensures r.Ok? ==> !r.value.0.InDivergingList()
    ensures r.Ok? ==> r.value.0 == [Plasma, Inferno, Magma, Viridis][n]
  {
    if n == 0 then Ok((Plasma, "Plasma256"))
    else if n == 1 then Ok((Inferno, "Inferno256"))
    else if n == 2 then Ok((Magma, "Magma256"))
    else if n == 3 then Ok((Viridis, "Viridis256"))
    else Err(UnboundPalette)
  }

  /** Different choices give different colormaps. */
  lemma CmapChoiceInjective(m: int, n: int)
    requires CmapChoice(m).Ok? && CmapChoice(n).Ok? && m != n
    ensures CmapChoice(m).value.0 != CmapChoice(n).value.0
  {
  }

  // ------------------------------------------------ label removal

  function StripAll(labels: seq<string>): seq<string> {
    seq(|labels|, i requires 0 <= i < |labels| => Strip(labels[i]))
  }

  /** The script's removal loops: each requested group (or period) is
      stripped of surrounding white space, then removed from the shown
      labels. */
  method ScriptRemoveLabels(labels: seq<string>, toRemove: seq<string>) returns (r: Option<seq<string>>)
    ensures r == RemoveAll(labels, StripAll(toRemove))
  {
    var current := labels;
    for i := 0 to |toRemove|
      invariant RemoveAll(labels, StripAll(toRemove)[..i]) == Some(current)
    {
      assert StripAll(toRemove)[..i + 1][..i] == StripAll(toRemove)[..i];
      var stripped := Strip(toRemove[i]);
      var next := RemoveFirst(current, stripped);
      if next.None? {
        assert RemoveAll(labels, StripAll(toRemove)[..i + 1]) == None;
        RemoveAllFailurePersists(labels, StripAll(toRemove), i + 1);
        return None;
      }
      current := next.value;
    }
    assert StripAll(toRemove)[..|toRemove|] == StripAll(toRemove);
    return Some(current);
  }

  // ------------------------------------------------ CSV rows

  /** The first loop over the CSV rows (`row[0]`, `row[1]`) and the float
      conversion of the second fields. `parse` stands for `float`, None
      being its `ValueError`. */
  method ReadColumns(rows: seq<seq<string>>, parse: string -> Option<real>)
    returns (r: Result<(seq<string>, seq<real>), ScriptError>)
    ensures r.Ok? <==> forall i :: 0 <= i < |rows| ==> |rows[i]| >= 2 && parse(rows[i][1]).Some?
    ensures (exists i :: 0 <= i < |rows| && |rows[i]| < 2) ==> r == Err(MissingField)
    ensures (forall i :: 0 <= i < |rows| ==> |rows[i]| >= 2) && r.Err? ==>
      exists k :: 0 <= k < |rows| && parse(rows[k][1]).None? && r == Err(NotAFloat(rows[k][1])) &&
                  forall j :: 0 <= j < k ==> parse(rows[j][1]).Some?
    ensures r.Ok? ==>
      && |r.value.0| == |rows| && |r.value.1| == |rows|
      && forall i :: 0 <= i < |rows| ==> r.value.0[i] == rows[i][0] && parse(rows[i][1]) == Some(r.value.1[i])
  {
    var dataElements: seq<string> := [];
    var dataList: seq<string> := [];
    for i := 0 to |rows|
      invariant |dataElements| == i && |dataList| == i
      invariant forall j :: 0 <= j < i ==> |rows[j]| >= 2 && dataElements[j] == rows[j][0] && dataList[j] == rows[j][1]
    {
      if |rows[i]| < 2 {
        return Err(MissingField);
      }
      dataElements := dataElements + [rows[i][0]];
      dataList := dataList + [rows[i][1]];
    }
    var data: seq<real> := [];
    for i := 0 to |dataList|
      invariant |data| == i
      invariant forall j :: 0 <= j < i ==> parse(dataList[j]) == Some(data[j])
    {
      var value := parse(dataList[i]);
      if value.None? {
        return Err(NotAFloat(dataList[i]));
      }
      data := data + [value.value];
    }
    // the two lists always have the same length here, so the length check cannot fail
    return Ok((dataElements, data));
  }

  // ------------------------------------------------ colour range

  /** The script's values as a column with no NaN entries. */
  function Lift(data: seq<real>): Column {
    seq(|data|, i requires 0 <= i < |data| => Some(data[i]))
  }

  /** The legend's mapper in the script: logarithmic or linear over the
      range from the least to the greatest datum. */
  datatype ScriptMapper = ScriptMapper(logarithmic: bool, low: real, high: real)

  /** The index of the first negative value. */
  function FirstNegative(data: seq<real>): (r: Option<nat>)
    ensures r.None? <==> forall i :: 0 <= i < |data| ==> data[i] >= 0.0
    ensures r.Some? ==> r.value < |data| && data[r.value] < 0.0 &&
                        forall j :: 0 <= j < r.value ==> data[j] >= 0.0
  {
    if data == [] then None
    else if data[0] < 0.0 then Some(0)
    else
      match FirstNegative(data[1..])
      case None => None
      case Some(k) => Some(k + 1)
  }

  /** The range, with the negative check the message of line 136 intends:
      the first negative value is reported. */
  function ScriptScale(data: seq<real>, logScale: bool): (r: Result<ScriptMapper, ScriptError>)
  {
    if logScale && FirstNegative(data).Some? then Err(NegativeUnderLog(data[FirstNegative(data).value]))
    else if data == [] then Err(EmptyData)
    else Ok(ScriptMapper(logScale, DataMin(Lift(data)).value, DataMax(Lift(data)).value))
  }

  /** The range as written: building the message concatenates a string and
      a float, so the `ValueError` is never raised and a `TypeError` is. */
  function ScriptScaleAsWritten(data: seq<real>, logScale: bool): (r: Result<ScriptMapper, ScriptError>)
    ensures logScale && FirstNegative(data).Some? ==> r == Err(ConcatenationTypeError)
    ensures !(logScale && FirstNegative(data).Some?) ==> r == ScriptScale(data, logScale)
  {
    if logScale && FirstNegative(data).Some? then Err(ConcatenationTypeError)
    else ScriptScale(data, logScale)
  }

  /** A negative value under `--log_scale 1` gets the intended message
      only in the corrected version. */
  lemma NegativeLogMessage()
    ensures ScriptScaleAsWritten([2.0, -1.0], true) == Err(ConcatenationTypeError)
    ensures ScriptScale([2.0, -1.0], true) == Err(NegativeUnderLog(-1.0))
  {
    assert FirstNegative([2.0, -1.0]) == Some(1) by {
      assert [2.0, -1.0][1..] == [-1.0];
    }
  }

  /** The corrected range: it fails exactly on a negative value under the
      logarithmic scale (naming the first one) or on empty data, and
      otherwise spans the data from its least to its greatest value, both
      of which occur in it. */
  lemma ScriptScaleFacts(data: seq<real>, logScale: bool)
    ensures var r := ScriptScale(data, logScale);
      && (r.Err? <==> data == [] || (logScale && exists i :: 0 <= i < |data| && data[i] < 0.0))
      && (r.Err? && r.error.NegativeUnderLog? ==>
            exists i :: 0 <= i < |data| && data[i] == r.error.datum < 0.0 &&
                        forall j :: 0 <= j < i ==> data[j] >= 0.0)
      && (r.Ok? ==>
            && r.value.logarithmic == logScale && r.value.low <= r.value.high
            && (exists i :: 0 <= i < |data| && data[i] == r.value.low)
            && (exists i :: 0 <= i < |data| && data[i] == r.value.high)
            && forall i :: 0 <= i < |data| ==> r.value.low <= data[i] <= r.value.high)
  {
    var c := Lift(data);
    MinMaxOrdered(c);
    if data != [] {
      assert c[0].Some?;
    }
    if ScriptScale(data, logScale).Ok? {
      var i :| 0 <= i < |c| && c[i] == DataMin(c);
      var j :| 0 <= j < |c| && c[j] == DataMax(c);
      assert data[i] == ScriptScale(data, logScale).value.low;
      assert data[j] == ScriptScale(data, logScale).value.high;
      forall k | 0 <= k < |data| ensures ScriptScale(data, logScale).value.low <= data[k] <= ScriptScale(data, logScale).value.high {
        assert c[k].Some?;
      }
    }
  }

  /** ptable_trends.py:129-141 in their corrected form: the log-scale branch
      scans the values for a negative one before taking the range. */
  method ScriptColorScale(data: seq<real>, logScale: bool) returns (r: Result<ScriptMapper, ScriptError>)
    ensures r == ScriptScale(data, logScale)
  {
    if logScale {
      for i := 0 to |data|
        invariant forall j :: 0 <= j < i ==> data[j] >= 0.0
      {
        if data[i] < 0.0 {
          return Err(NegativeUnderLog(data[i]));
        }
      }
    }
    if data == [] {
      return Err(EmptyData);
    }
    var c := Lift(data);
    assert c[0].Some?;
    return Ok(ScriptMapper(logScale, DataMin(c).value, DataMax(c).value));
  }
}
