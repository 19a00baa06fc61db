/** The cell-colouring pass: every reference element starts with the blank
    colour, each data row then updates at most one cell, and a final pass
    paints the highlighted elements.

    `Step`/`PassUpTo`/`ColorElements` model the first-writer-wins loop that
    src/periodic_trends/core.py, src/periodic_trends.py and
    periodic_trends.py share; `ScriptStep`/`ScriptPassUpTo`/
    `ScriptColorElements` model the last-writer-wins loop of
    ptable_trends.py. `Reindex` models the `set_index`/`reindex` that the
    three package-style plotters apply before the loop. */
module Cells {
  import opened Wrappers
  import opened PyText
  import opened Elements

  /** One row of the data frame: the element label and its value (None is
      NaN). */
  datatype DataRow = DataRow(symbol: string, value: Option<real>)

  /** The colours and thresholds of one plot call. */
  datatype CellPolicy = CellPolicy(
    blank: string,
    underValue: Option<real>, underColor: string,
    overValue: Option<real>, overColor: string)

  datatype Warning =
    | InvalidSymbol(symbol: string)   // "Invalid chemical symbol: ..."
    | MultipleEntries(symbol: string) // "Multiple entries for element ..."

  /** `element_index` is read before any row has bound it: Python's
      `NameError` on a first row with an unknown symbol. */
  datatype PassError = UnboundElementIndex

  /** The loop's variables: `color_list`, `element_index` (which persists
      from one iteration to the next) and the warnings issued so far. */
  datatype PassState = PassState(colors: seq<string>, elementIndex: Option<nat>, warnings: seq<Warning>)

  predicate ValidState(table: Table, st: PassState) {
    |st.colors| == |table| && (st.elementIndex.Some? ==> st.elementIndex.value < |table|)
  }

  /** The loop's starting state: every cell blank, no element bound yet,
      no warning. */
  function Initial(table: Table, blank: string): (st: PassState)
    ensures ValidState(table, st)
    ensures forall k :: 0 <= k < |st.colors| ==> st.colors[k] == blank
    ensures st.elementIndex == None && st.warnings == []
  {
    PassState(seq(|table|, _ => blank), None, [])
  }

  /** The colour row `i` gives a cell that is still blank: NaN, then the
      under threshold, then the over threshold, then the row's scaled
      colour `scaled(i)` (matplotlib's hex colour for the row, opaque here). */
  function NewColor(value: Option<real>, i: nat, p: CellPolicy, scaled: nat -> string): string {
    if value.None? then p.blank
    else if p.underValue.Some? && value.value <= p.underValue.value then p.underColor
    else if p.overValue.Some? && value.value >= p.overValue.value then p.overColor
    else scaled(i)
  }

  /** Which colour a value gets: missing values are blank, a value at or
      below `under_value` gets `under_color` even when it is also at or
      above `over_value`, a value at or above `over_value` (and above
      `under_value`) gets `over_color`, and only a value strictly between
      the thresholds that are set gets its scaled colour. */
  lemma NewColorCases(value: Option<real>, i: nat, p: CellPolicy, scaled: nat -> string)
    ensures value.None? ==> NewColor(value, i, p, scaled) == p.blank
    ensures value.Some? && p.underValue.Some? && value.value <= p.underValue.value ==>
      NewColor(value, i, p, scaled) == p.underColor
    ensures value.Some? && (p.underValue.None? || value.value > p.underValue.value) &&
            p.overValue.Some? && value.value >= p.overValue.value ==>
      NewColor(value, i, p, scaled) == p.overColor
    ensures value.Some? && (p.underValue.None? || value.value > p.underValue.value) &&
            (p.overValue.None? || value.value < p.overValue.value) ==>
      NewColor(value, i, p, scaled) == scaled(i)
  {
  }

  // ------------------------------------------------ first writer wins

  /** One iteration of the colouring loop over the data rows. */
  function Step(table: Table, rows: seq<DataRow>, i: nat, st: PassState, p: CellPolicy, scaled: nat -> string)
    : (r: Result<PassState, PassError>)
    requires i < |rows| && ValidState(table, st)
    ensures r.Ok? ==> ValidState(table, r.value)
  {
    var symbol := rows[i].symbol;
    var entry := FirstMatch(table, symbol);
    var index := if entry.Some? then entry else st.elementIndex;
    var warnings := if entry.Some? then st.warnings else st.warnings + [InvalidSymbol(symbol)];
    if index.None? then Err(UnboundElementIndex)
    else if st.colors[index.value] != p.blank then
      Ok(PassState(st.colors, index, warnings + [MultipleEntries(symbol)]))
    else
      Ok(PassState(st.colors[index.value := NewColor(rows[i].value, i, p, scaled)], index, warnings))
  }

  /** The state after the first `n` rows, or the error that stopped the loop. */
  function PassUpTo(table: Table, rows: seq<DataRow>, n: nat, p: CellPolicy, scaled: nat -> string)
    : (r: Result<PassState, PassError>)
    requires n <= |rows|
    ensures r.Ok? ==> ValidState(table, r.value)
  {
    if n == 0 then Ok(Initial(table, p.blank))
    else
      match PassUpTo(table, rows, n - 1, p, scaled)
      case Err(e) => Err(e)
      case Ok(st) => Step(table, rows, n - 1, st, p, scaled)
  }

  /** The highlight pass after the colouring loop: every reference row
      whose symbol is one of the special elements gets the special colour. */
  function Highlight(table: Table, colors: seq<string>, special: seq<string>, specialColor: string): (r: seq<string>)
    requires |colors| == |table|
    ensures |r| == |table|
  {
    seq(|table|, k requires 0 <= k < |table| => if table[k].symbol in special then specialColor else colors[k])
  }

  /** The highlight paints exactly the listed symbols (exactly, case
      included) with the special colour: an empty list changes nothing, so the `if
      special_elements:` guard is only a shortcut, and painting twice is
      painting once. */
  lemma HighlightFacts(table: Table, colors: seq<string>, special: seq<string>, specialColor: string)
    requires |colors| == |table|
    ensures Highlight(table, colors, [], specialColor) == colors
    ensures Highlight(table, Highlight(table, colors, special, specialColor), special, specialColor)
         == Highlight(table, colors, special, specialColor)
    ensures forall k :: 0 <= k < |table| && table[k].symbol in special ==>
      Highlight(table, colors, special, specialColor)[k] == specialColor
    ensures forall k :: 0 <= k < |table| && table[k].symbol !in special ==>
      Highlight(table, colors, special, specialColor)[k] == colors[k]
  {
    assert Highlight(table, colors, [], specialColor) == colors;
  }

  /** Which cell a row writes: the first reference row matching its symbol
      ignoring case, or, for an unknown symbol, the previous row's
      `element_index` (with an "Invalid chemical symbol" warning); the loop
      fails only when neither exists. */
  lemma StepIndex(table: Table, rows: seq<DataRow>, i: nat, st: PassState, p: CellPolicy, scaled: nat -> string)
    requires i < |rows| && ValidState(table, st)
    ensures var r := Step(table, rows, i, st, p, scaled);
      var entry := FirstMatch(table, rows[i].symbol);
      && (r.Err? <==> entry.None? && st.elementIndex.None?)
      && (r.Ok? && entry.Some? ==> r.value.elementIndex == entry)
      && (r.Ok? && entry.None? ==>
            r.value.elementIndex == st.elementIndex && r.value.warnings[|st.warnings|] == InvalidSymbol(rows[i].symbol))
  {
  }

  /** A row changes no cell but its own `element_index`; an occupied
      (non-blank) cell is left alone with a "Multiple entries" warning, a
      blank cell takes the row's colour. */
  lemma StepWrites(table: Table, rows: seq<DataRow>, i: nat, st: PassState, p: CellPolicy, scaled: nat -> string)
    requires i < |rows| && ValidState(table, st)
    requires Step(table, rows, i, st, p, scaled).Ok?
    ensures var after := Step(table, rows, i, st, p, scaled).value;
      var k := after.elementIndex.value;
      && (forall c :: 0 <= c < |table| && c != k ==> after.colors[c] == st.colors[c])
      && (st.colors[k] != p.blank ==>
            after.colors == st.colors && after.warnings[|after.warnings| - 1] == MultipleEntries(rows[i].symbol))
      && (st.colors[k] == p.blank ==> after.colors[k] == NewColor(rows[i].value, i, p, scaled))
  {
  }

  /** Once the loop has failed it stays failed. */
  lemma {:induction false} PassFailurePersists(table: Table, rows: seq<DataRow>, n: nat, m: nat, p: CellPolicy, scaled: nat -> string)
    requires n <= m <= |rows| && PassUpTo(table, rows, n, p, scaled).Err?
    ensures PassUpTo(table, rows, m, p, scaled).Err?
    decreases m - n
  {
    if n < m {
      PassFailurePersists(table, rows, n, m - 1, p, scaled);
    }
  }

  /** The colouring loop and the special pass of `plotter`, updating the
      list `color_list` cell by cell. */
  method ColorElements(table: Table, rows: seq<DataRow>, p: CellPolicy, scaled: nat -> string,
                       special: seq<string>, specialColor: string)
    returns (r: Result<(seq<string>, seq<Warning>), PassError>)
    ensures r.Err? <==> PassUpTo(table, rows, |rows|, p, scaled).Err?
    ensures r.Ok? ==>
      var st := PassUpTo(table, rows, |rows|, p, scaled).value;
      r.value == (Highlight(table, st.colors, special, specialColor), st.warnings)
  {
    var colorList: seq<string> := seq(|table|, _ => p.blank);
    var elementIndex: Option<nat> := None;
    var warnings: seq<Warning> := [];
    for i := 0 to |rows|
      invariant PassUpTo(table, rows, i, p, scaled) == Ok(PassState(colorList, elementIndex, warnings))
    {
      ghost var before := PassState(colorList, elementIndex, warnings);
      var entry := FirstMatch(table, rows[i].symbol);
      if entry.Some? {
        elementIndex := entry;
      } else {
        warnings := warnings + [InvalidSymbol(rows[i].symbol)];
      }
      if elementIndex.None? {
        assert PassUpTo(table, rows, i + 1, p, scaled).Err?;
        PassFailurePersists(table, rows, i + 1, |rows|, p, scaled);
        return Err(UnboundElementIndex);
      }
      var k := elementIndex.value;
      if colorList[k] != p.blank {
        warnings := warnings + [MultipleEntries(rows[i].symbol)];
      } else {
        colorList := colorList[k := NewColor(rows[i].value, i, p, scaled)];
      }
      assert Step(table, rows, i, before, p, scaled) == Ok(PassState(colorList, elementIndex, warnings));
    }
    ghost var passed := colorList;
    if special != [] {
      for k := 0 to |table|
        invariant |colorList| == |table|
        invariant forall j :: 0 <= j < |table| ==>
          colorList[j] == if j < k && table[j].symbol in special then specialColor else passed[j]
      {
        if table[k].symbol in special {
          colorList := colorList[k := specialColor];
        }
      }
    }
    assert colorList == Highlight(table, passed, special, specialColor);
    return Ok((colorList, warnings));
  }

  /** A reference element that no row names (ignoring case) keeps the blank
      colour: `element_index` only ever holds a matched row's index. */
  lemma {:induction false} UnnamedCellStaysBlank(table: Table, rows: seq<DataRow>, n: nat, k: nat, p: CellPolicy, scaled: nat -> string)
    requires n <= |rows| && k < |table|
    requires forall j :: 0 <= j < n ==> FirstMatch(table, rows[j].symbol) != Some(k)
    requires PassUpTo(table, rows, n, p, scaled).Ok?
    ensures PassUpTo(table, rows, n, p, scaled).value.colors[k] == p.blank
    ensures PassUpTo(table, rows, n, p, scaled).value.elementIndex != Some(k)
  {
    if n > 0 {
      UnnamedCellStaysBlank(table, rows, n - 1, k, p, scaled);
    }
  }

  /** The first row naming an element decides its colour for good when
      that colour is not the blank one: every later row naming the same
      element, and every unknown symbol that reuses its index, is ignored. */
  lemma {:induction false} FirstWriterWins(table: Table, rows: seq<DataRow>, j: nat, n: nat, k: nat, p: CellPolicy, scaled: nat -> string)
    requires j < n <= |rows| && k < |table|
    requires FirstMatch(table, rows[j].symbol) == Some(k)
    requires forall i :: 0 <= i < j ==> FirstMatch(table, rows[i].symbol) != Some(k)
    requires NewColor(rows[j].value, j, p, scaled) != p.blank
    requires PassUpTo(table, rows, n, p, scaled).Ok?
    ensures PassUpTo(table, rows, n, p, scaled).value.colors[k] == NewColor(rows[j].value, j, p, scaled)
  {
    if n == j + 1 {
      UnnamedCellStaysBlank(table, rows, j, k, p, scaled);
    } else {
      FirstWriterWins(table, rows, j, n - 1, k, p, scaled);
    }
  }

  // ------------------------------------------------ reindexed input

  /** The value of the row labelled exactly `symbol`; None (NaN) when no
      row has that label. */
  function ValueOf(rows: seq<DataRow>, symbol: string): Option<real> {
    if rows == [] then None
    else if rows[0].symbol == symbol then rows[0].value
    else ValueOf(rows[1..], symbol)
  }

  /** The first row labelled `symbol` gives the value for `symbol`. */
  lemma {:induction false} ValueOfFound(rows: seq<DataRow>, j: nat)
    requires j < |rows| && forall i :: 0 <= i < j ==> rows[i].symbol != rows[j].symbol
    ensures ValueOf(rows, rows[j].symbol) == rows[j].value
  {
    if j > 0 {
      assert rows[0].symbol != rows[j].symbol;
      assert rows[1..][j - 1] == rows[j];
      ValueOfFound(rows[1..], j - 1);
    }
  }

  /** Every row that is the first with its label gives the value for it. */
  lemma ValueOfFirst(rows: seq<DataRow>)
    ensures forall j :: 0 <= j < |rows| && (forall i :: 0 <= i < j ==> rows[i].symbol != rows[j].symbol) ==>
      ValueOf(rows, rows[j].symbol) == rows[j].value
  {
    forall j | 0 <= j < |rows| && (forall i :: 0 <= i < j ==> rows[i].symbol != rows[j].symbol)
      ensures ValueOf(rows, rows[j].symbol) == rows[j].value
    {
      ValueOfFound(rows, j);
    }
  }

  /** Without duplicate labels, every row gives the value for its label. */
  lemma ValueOfUnique(rows: seq<DataRow>)
    requires !DuplicateLabels(rows)
    ensures forall j :: 0 <= j < |rows| ==> ValueOf(rows, rows[j].symbol) == rows[j].value
  {
    ValueOfFirst(rows);
  }

  predicate DuplicateLabels(rows: seq<DataRow>) {
    exists i, j :: 0 <= i < j < |rows| && rows[i].symbol == rows[j].symbol
  }

  /** pandas' reindexing of the data by the reference symbols: one row per
      reference element, in reference order, labelled with the exact
      reference symbol and carrying the value of the input row with exactly
      that label (NaN if there is none). None is pandas' refusal to reindex
      an index with duplicate labels. */
  function Reindex(table: Table, rows: seq<DataRow>): (r: Option<seq<DataRow>>)
    ensures r.None? <==> DuplicateLabels(rows)
    ensures r.Some? ==> (|r.value| == |table| &&
      forall i :: 0 <= i < |table| ==> r.value[i] == DataRow(table[i].symbol, ValueOf(rows, table[i].symbol)))
    ensures r.Some? ==> forall i, j :: 0 <= i < |table| && 0 <= j < |rows| && rows[j].symbol == table[i].symbol ==>
      r.value[i].value == rows[j].value
    ensures r.Some? ==> forall i :: 0 <= i < |table| && (forall j :: 0 <= j < |rows| ==> rows[j].symbol != table[i].symbol) ==>
      r.value[i].value == None
  {
    if DuplicateLabels(rows) then None
    else
      ValueOfUnique(rows);
      AbsentLabels(table, rows);
      Some(seq(|table|, i requires 0 <= i < |table| => DataRow(table[i].symbol, ValueOf(rows, table[i].symbol))))
  }

  /** A row whose label is not exactly a reference symbol (`"fe"` for
      `"Fe"`) contributes nothing after reindexing. */
  lemma {:induction false} ValueOfIgnoresOtherLabels(rows: seq<DataRow>, symbol: string)
    requires forall i :: 0 <= i < |rows| ==> rows[i].symbol != symbol
    ensures ValueOf(rows, symbol) == None
  {
    if rows != [] {
      ValueOfIgnoresOtherLabels(rows[1..], symbol);
    }
  }

  /** Every reference symbol that no row carries reads as NaN. */
  lemma AbsentLabels(table: Table, rows: seq<DataRow>)
    ensures forall i :: 0 <= i < |table| && (forall j :: 0 <= j < |rows| ==> rows[j].symbol != table[i].symbol) ==>
      ValueOf(rows, table[i].symbol) == None
  {
    forall i | 0 <= i < |table| && (forall j :: 0 <= j < |rows| ==> rows[j].symbol != table[i].symbol)
      ensures ValueOf(rows, table[i].symbol) == None
    {
      ValueOfIgnoresOtherLabels(rows, table[i].symbol);
    }
  }

  predicate Aligned(table: Table, rows: seq<DataRow>) {
    |rows| == |table| && forall i :: 0 <= i < |table| ==> rows[i].symbol == table[i].symbol
  }

  /** The cell colours after the first `m` aligned rows. */
  function AlignedColors(table: Table, rows: seq<DataRow>, m: nat, p: CellPolicy, scaled: nat -> string): (r: seq<string>)
    requires Aligned(table, rows)
    ensures |r| == |table|
  {
    seq(|table|, c requires 0 <= c < |table| => if c < m then NewColor(rows[c].value, c, p, scaled) else p.blank)
  }

  /** With rows aligned to the reference table, row `i` finds cell `i`,
      which is still blank, so the loop fails on nothing, warns about
      nothing, and gives every cell its own row's colour. */
  lemma {:induction false} AlignedRowsLandInPlace(table: Table, rows: seq<DataRow>, m: nat, p: CellPolicy, scaled: nat -> string)
    requires Aligned(table, rows) && CaseDistinct(table) && m <= |rows|
    ensures PassUpTo(table, rows, m, p, scaled) ==
      Ok(PassState(AlignedColors(table, rows, m, p, scaled), if m == 0 then None else Some(m - 1), []))
  {
    if m > 0 {
      AlignedRowsLandInPlace(table, rows, m - 1, p, scaled);
      FirstMatchOwnRow(table, m - 1);
      var before := PassState(AlignedColors(table, rows, m - 1, p, scaled), if m == 1 then None else Some(m - 2), []);
      assert before.colors[m - 1] == p.blank;
      assert PassUpTo(table, rows, m, p, scaled) == Step(table, rows, m - 1, before, p, scaled);
      assert Step(table, rows, m - 1, before, p, scaled) ==
        Ok(PassState(before.colors[m - 1 := NewColor(rows[m - 1].value, m - 1, p, scaled)], Some(m - 1), []));
      assert AlignedColors(table, rows, m - 1, p, scaled)[m - 1 := NewColor(rows[m - 1].value, m - 1, p, scaled)]
          == AlignedColors(table, rows, m, p, scaled);
    } else {
      assert Initial(table, p.blank).colors == AlignedColors(table, rows, 0, p, scaled);
    }
  }

  /** With aligned rows every symbol is found, so the loop never reaches an
      unbound `element_index`, whatever the reference symbols. */
  lemma {:induction false} AlignedPassSucceeds(table: Table, rows: seq<DataRow>, m: nat, p: CellPolicy, scaled: nat -> string)
    requires Aligned(table, rows) && m <= |rows|
    ensures PassUpTo(table, rows, m, p, scaled).Ok?
  {
    if m > 0 {
      AlignedPassSucceeds(table, rows, m - 1, p, scaled);
      assert SameSymbol(table[m - 1].symbol, rows[m - 1].symbol);
    }
  }

  /** In the package plotters the loop runs over the reindexed frame, so
      with the real (case-distinct) reference table no warning fires, no
      `NameError` is possible, and each element's cell gets the colour of
      the input row labelled exactly with its symbol. */
  lemma ReindexedPassLandsInPlace(table: Table, rows: seq<DataRow>, p: CellPolicy, scaled: nat -> string)
    requires CaseDistinct(table) && Reindex(table, rows).Some?
    ensures var aligned := Reindex(table, rows).value;
      var r := PassUpTo(table, aligned, |aligned|, p, scaled);
      && r.Ok? && r.value.warnings == []
      && forall i :: 0 <= i < |table| ==> r.value.colors[i] == NewColor(ValueOf(rows, table[i].symbol), i, p, scaled)
  {
    var aligned := Reindex(table, rows).value;
    AlignedRowsLandInPlace(table, aligned, |aligned|, p, scaled);
  }

  // ------------------------------------------------ last writer wins (ptable_trends.py)

  /** ptable_trends.py's fixed blank colour. */
  const ScriptBlank: string := "#c4c4c4"

  /** One iteration of ptable_trends.py's loop: the duplicate only warns
      and the cell is overwritten anyway. */
  function ScriptStep(table: Table, symbols: seq<string>, i: nat, st: PassState, scaled: nat -> string)
    : (r: Result<PassState, PassError>)
    requires i < |symbols| && ValidState(table, st)
    ensures r.Ok? ==> ValidState(table, r.value)
  {
    var entry := FirstMatch(table, symbols[i]);
    var index := if entry.Some? then entry else st.elementIndex;
    var warnings := if entry.Some? then st.warnings else st.warnings + [InvalidSymbol(symbols[i])];
    if index.None? then Err(UnboundElementIndex)
    else
      var warnings' := if st.colors[index.value] != ScriptBlank then warnings + [MultipleEntries(symbols[i])] else warnings;
      Ok(PassState(st.colors[index.value := scaled(i)], index, warnings'))
  }

  function ScriptPassUpTo(table: Table, symbols: seq<string>, n: nat, scaled: nat -> string)
    : (r: Result<PassState, PassError>)
    requires n <= |symbols|
    ensures r.Ok? ==> ValidState(table, r.value)
  {
    if n == 0 then Ok(Initial(table, ScriptBlank))
    else
      match ScriptPassUpTo(table, symbols, n - 1, scaled)
      case Err(e) => Err(e)
      case Ok(st) => ScriptStep(table, symbols, n - 1, st, scaled)
  }

  lemma {:induction false} ScriptFailurePersists(table: Table, symbols: seq<string>, n: nat, m: nat, scaled: nat -> string)
    requires n <= m <= |symbols| && ScriptPassUpTo(table, symbols, n, scaled).Err?
    ensures ScriptPassUpTo(table, symbols, m, scaled).Err?
    decreases m - n
  {
    if n < m {
      ScriptFailurePersists(table, symbols, n, m - 1, scaled);
    }
  }

  /** ptable_trends.py: `color_list` built by appending the blank colour,
      then one write per data row. */
  method ScriptColorElements(table: Table, symbols: seq<string>, scaled: nat -> string)
    returns (r: Result<(seq<string>, seq<Warning>), PassError>)
    ensures r.Err? <==> ScriptPassUpTo(table, symbols, |symbols|, scaled).Err?
    ensures r.Ok? ==>
      var st := ScriptPassUpTo(table, symbols, |symbols|, scaled).value;
      r.value == (st.colors, st.warnings)
  {
    var colorList: seq<string> := [];
    for i := 0 to |table|
      invariant colorList == seq(i, _ => ScriptBlank)
    {
      colorList := colorList + [ScriptBlank];
    }
    var elementIndex: Option<nat> := None;
    var warnings: seq<Warning> := [];
    for i := 0 to |symbols|
      invariant ScriptPassUpTo(table, symbols, i, scaled) == Ok(PassState(colorList, elementIndex, warnings))
    {
      var entry := FirstMatch(table, symbols[i]);
      if entry.Some? {
        elementIndex := entry;
      } else {
        warnings := warnings + [InvalidSymbol(symbols[i])];
      }
      if elementIndex.None? {
        ScriptFailurePersists(table, symbols, i + 1, |symbols|, scaled);
        return Err(UnboundElementIndex);
      }
      if colorList[elementIndex.value] != ScriptBlank {
        warnings := warnings + [MultipleEntries(symbols[i])];
      }
      colorList := colorList[elementIndex.value := scaled(i)];
    }
    return Ok((colorList, warnings));
  }

  /** The last of the first `n` rows that names element `k`. */
  function LastNaming(table: Table, symbols: seq<string>, k: nat, n: nat): (r: Option<nat>)
    requires n <= |symbols|
    ensures r.Some? ==> r.value < n && FirstMatch(table, symbols[r.value]) == Some(k)
    ensures r.Some? ==> forall i :: r.value < i < n ==> FirstMatch(table, symbols[i]) != Some(k)
    ensures r.None? ==> forall i :: 0 <= i < n ==> FirstMatch(table, symbols[i]) != Some(k)
  {
    if n == 0 then None
    else if FirstMatch(table, symbols[n - 1]) == Some(k) then Some(n - 1)
    else LastNaming(table, symbols, k, n - 1)
  }

  predicate AllKnown(table: Table, symbols: seq<string>) {
    forall i :: 0 <= i < |symbols| ==> FirstMatch(table, symbols[i]).Some?
  }

  /** With every symbol known, each cell ends with the scaled colour of the
      last row naming it, or blank if no row names it. */
  lemma {:induction false} LastWriterWins(table: Table, symbols: seq<string>, n: nat, k: nat, scaled: nat -> string)
    requires n <= |symbols| && k < |table| && AllKnown(table, symbols)
    ensures ScriptPassUpTo(table, symbols, n, scaled).Ok?
    ensures ScriptPassUpTo(table, symbols, n, scaled).value.colors[k] ==
      match LastNaming(table, symbols, k, n)
      case None => ScriptBlank
      case Some(j) => scaled(j)
  {
    if n > 0 {
      LastWriterWins(table, symbols, n - 1, k, scaled);
    }
  }

  /** A row whose symbol is known binds its first match and overwrites
      that cell; it warns about a duplicate exactly when the cell already
      holds a colour. */
  lemma ScriptStepKnown(table: Table, symbols: seq<string>, i: nat, st: PassState, scaled: nat -> string, idx: nat)
    requires i < |symbols| && ValidState(table, st) && FirstMatch(table, symbols[i]) == Some(idx)
    ensures idx < |st.colors|
    ensures st.colors[idx] != ScriptBlank ==>
      ScriptStep(table, symbols, i, st, scaled) ==
        Ok(PassState(st.colors[idx := scaled(i)], Some(idx), st.warnings + [MultipleEntries(symbols[i])]))
    ensures st.colors[idx] == ScriptBlank ==>
      ScriptStep(table, symbols, i, st, scaled) == Ok(PassState(st.colors[idx := scaled(i)], Some(idx), st.warnings))
  {
  }

  /** The stale-index quirk: a row with an unknown symbol after a known one
      warns and then overwrites the previous row's cell with its own colour. */
  lemma StaleIndexOverwrites(table: Table, symbols: seq<string>, i: nat, st: PassState, scaled: nat -> string)
    requires i < |symbols| && ValidState(table, st)
    requires FirstMatch(table, symbols[i]).None? && st.elementIndex.Some?
    ensures var r := ScriptStep(table, symbols, i, st, scaled);
      && r.Ok? && r.value.elementIndex == st.elementIndex
      && r.value.colors == st.colors[st.elementIndex.value := scaled(i)]
      && r.value.warnings[|st.warnings|] == InvalidSymbol(symbols[i])
  {
  }

  /** An unknown symbol on the very first row reads `element_index` before
      it is bound: the loop fails. */
  lemma UnknownFirstSymbolFails(table: Table, rows: seq<DataRow>, p: CellPolicy, scaled: nat -> string)
    requires |rows| > 0 && FirstMatch(table, rows[0].symbol).None?
    ensures PassUpTo(table, rows, 1, p, scaled) == Err(UnboundElementIndex)
    ensures ScriptPassUpTo(table, seq(|rows|, i requires 0 <= i < |rows| => rows[i].symbol), 1, scaled) == Err(UnboundElementIndex)
  {
  }
}
