/** Column resolution (`_input_checker` in
    src/periodic_trends/_bokeh_tools.py): which column of the input frame
    holds the element symbols and which the data. */
module Columns {
  import opened Wrappers
  import opened PyText

  datatype InputDataError =
    | FewerThanTwoColumns          // the input has no `.columns` at all
    | ColumnsNotAssigned           // more than two columns and a name is missing
    | NotAColumnLabel(name: string) // more than two columns and a name is not a label
    | InvalidColumnLabels          // two columns and neither name is a label

  predicate IsLabel(name: Option<string>, columns: seq<string>) {
    name.Some? && name.value in columns
  }

  /** `_input_checker`, resolving the element and data columns. `columns` is None
      when the input object has no `.columns` attribute. */
  method InputChecker(columns: Option<seq<string>>, columnElements: Option<string>, columnData: Option<string>)
    returns (r: Result<(Option<string>, Option<string>), InputDataError>)
    ensures columns.None? ==> r == Err(FewerThanTwoColumns)
    // more than two columns: both names must be given and be labels, checked in this order
    ensures columns.Some? && |columns.value| > 2 ==>
      r == if columnElements.None? || columnData.None? then Err(ColumnsNotAssigned)
           else if !IsLabel(columnElements, columns.value) then Err(NotAColumnLabel(columnElements.value))
           else if !IsLabel(columnData, columns.value) then Err(NotAColumnLabel(columnData.value))
           else Ok((columnElements, columnData))
    // exactly two columns
    ensures columns.Some? && |columns.value| == 2 ==>
      var cols := columns.value;
      && (columnElements.None? && columnData.None? ==> r == Ok((Some(cols[0]), Some(cols[1]))))
      && (r.Err? <==> !IsLabel(columnElements, cols) && !IsLabel(columnData, cols) && !(columnElements.None? && columnData.None?))
      && (r.Err? ==> r.error == InvalidColumnLabels)
      && (IsLabel(columnElements, cols) && IsLabel(columnData, cols) ==> r == Ok((columnElements, columnData)))
      && (IsLabel(columnElements, cols) != IsLabel(columnData, cols) ==>
            r.Ok? && r.value.0.Some? && r.value.1.Some? && multiset{r.value.0.value, r.value.1.value} == multiset(cols)
            && (IsLabel(columnElements, cols) ==> r.value.0 == columnElements)
            && (IsLabel(columnData, cols) ==> r.value.1 == columnData))
    // fewer than two columns: nothing is checked
    ensures columns.Some? && |columns.value| < 2 ==> r == Ok((columnElements, columnData))
    // whenever there are at least two columns, success means both names are labels
    ensures columns.Some? && |columns.value| >= 2 && r.Ok? ==>
      IsLabel(r.value.0, columns.value) && IsLabel(r.value.1, columns.value)
  {
    if columns.None? {
      return Err(FewerThanTwoColumns);
    }
    var labels := columns.value;
    var elementsName, dataName := columnElements, columnData;
    if |labels| > 2 && (elementsName.None? || dataName.None?) {
      return Err(ColumnsNotAssigned);
    }
    if |labels| > 2 && !IsLabel(elementsName, labels) {
      return Err(NotAColumnLabel(elementsName.value));
    }
    if |labels| > 2 && !IsLabel(dataName, labels) {
      return Err(NotAColumnLabel(dataName.value));
    }
    if |labels| == 2 {
      if elementsName.None? && dataName.None? {
        elementsName := Some(labels[0]);
        dataName := Some(labels[1]);
      } else if IsLabel(elementsName, labels) && IsLabel(dataName, labels) {
      } else if !IsLabel(elementsName, labels) || !IsLabel(dataName, labels) {
        var remaining := labels;
        assert labels == [labels[0], labels[1]];
        if !IsLabel(elementsName, labels) && !IsLabel(dataName, labels) {
          return Err(InvalidColumnLabels);
        }
        if !IsLabel(dataName, labels) {
          remaining := RemoveFirst(remaining, elementsName.value).value;
          dataName := Some(remaining[0]);
        } else if !IsLabel(elementsName, labels) {
          remaining := RemoveFirst(remaining, dataName.value).value;
          elementsName := Some(remaining[0]);
        }
      }
    }
    return Ok((elementsName, dataName));
  }
}
