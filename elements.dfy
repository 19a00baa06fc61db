/** The periodic-table reference rows (bokeh's `elements` sample table) as
    the colouring code uses them: the symbol, and the period and group that
    place the cell. The table is passed to each call rather than shared. */
module Elements {
  import opened Wrappers
  import opened PyText

  /** One reference row. Period and group are the strings the layout plots
      against: the period as a string, and the group as a string (the
      extended layout writes its own group numbers). */
  datatype ElementRecord = ElementRecord(symbol: string, period: string, group: string)

  type Table = seq<ElementRecord>

  predicate SameSymbol(a: string, b: string) {
    Lower(a) == Lower(b)
  }

  /** No two reference symbols differ only in case (true of the real table). */
  predicate CaseDistinct(table: Table) {
    forall i, j :: 0 <= i < j < |table| ==> !SameSymbol(table[i].symbol, table[j].symbol)
  }

  /** The symbol lookup of the colouring loop: the first reference row whose symbol equals `symbol` ignoring case;
      None when that selection is empty. */
  function FirstMatch(table: Table, symbol: string): (r: Option<nat>)
    ensures r.Some? ==> r.value < |table| && SameSymbol(table[r.value].symbol, symbol)
    ensures r.Some? ==> forall j :: 0 <= j < r.value ==> !SameSymbol(table[j].symbol, symbol)
    ensures r.None? <==> forall j :: 0 <= j < |table| ==> !SameSymbol(table[j].symbol, symbol)
  {
    if |table| == 0 then None
    else if SameSymbol(table[0].symbol, symbol) then Some(0)
    else
      match FirstMatch(table[1..], symbol)
      case None => None
      case Some(k) => Some(k + 1)
  }

  /** With case-distinct symbols, a reference symbol finds its own row. */
  lemma FirstMatchOwnRow(table: Table, i: nat)
    requires CaseDistinct(table) && i < |table|
    ensures FirstMatch(table, table[i].symbol) == Some(i)
  {
  }

  /** Matching ignores case: `"fe"`, `"Fe"` and `"FE"` find the same row. */
  lemma {:induction false} FirstMatchIgnoresCase(table: Table, s: string, t: string)
    requires Lower(s) == Lower(t)
    ensures FirstMatch(table, s) == FirstMatch(table, t)
  {
    if |table| > 0 {
      FirstMatchIgnoresCase(table[1..], s, t);
    }
  }

  // ------------------------------------------------ lanthanoid / actinoid rows

  /** Reference rows 56..69 (La..Yb) and 88..101 (Ac..No) are moved to the
      "La" and "Ac" rows, groups "4" to "17". */
  const LanthanoidFirst: nat := 56
  const ActinoidFirst: nat := 88
  const SeriesLength: nat := 14

  /** The row `i` of the extended table. */
  function ExtendedRow(i: nat, e: ElementRecord): ElementRecord {
    if LanthanoidFirst <= i < LanthanoidFirst + SeriesLength then
      e.(period := "La", group := Str(i - LanthanoidFirst + 4))
    else if ActinoidFirst <= i < ActinoidFirst + SeriesLength then
      e.(period := "Ac", group := Str(i - ActinoidFirst + 4))
    else e
  }

  /** The two counted loops of the `extended` branch, writing the reference
      table in place. The table must reach row 101 (bokeh's has 118 rows). */
  method RelabelExtended(elements: array<ElementRecord>)
    requires elements.Length >= ActinoidFirst + SeriesLength
    modifies elements
    ensures forall i :: 0 <= i < elements.Length ==> elements[i] == ExtendedRow(i, old(elements[i]))
  {
    var count := 0;
    for i := LanthanoidFirst to LanthanoidFirst + SeriesLength
      invariant count == i - LanthanoidFirst
      invariant forall j :: 0 <= j < elements.Length ==>
        elements[j] == if LanthanoidFirst <= j < i then ExtendedRow(j, old(elements[j])) else old(elements[j])
    {
      elements[i] := elements[i].(period := "La", group := Str(count + 4));
      count := count + 1;
    }
    count := 0;
    for i := ActinoidFirst to ActinoidFirst + SeriesLength
      invariant count == i - ActinoidFirst
      invariant forall j :: 0 <= j < elements.Length ==>
        elements[j] == if LanthanoidFirst <= j < LanthanoidFirst + SeriesLength || ActinoidFirst <= j < i
                       then ExtendedRow(j, old(elements[j])) else old(elements[j])
    {
      elements[i] := elements[i].(period := "Ac", group := Str(count + 4));
      count := count + 1;
    }
  }

  /** What the relabelling does to each row: rows 56..69 go to period "La"
      and rows 88..101 to "Ac", with groups "4".."17" in order; every other
      row is unchanged, and no symbol changes. */
  lemma ExtendedRowFacts(i: nat, e: ElementRecord)
    ensures ExtendedRow(i, e).symbol == e.symbol
    ensures 56 <= i < 70 ==> ExtendedRow(i, e) == e.(period := "La", group := Str(i - 52))
    ensures 88 <= i < 102 ==> ExtendedRow(i, e) == e.(period := "Ac", group := Str(i - 84))
    ensures !(56 <= i < 70) && !(88 <= i < 102) ==> ExtendedRow(i, e) == e
  {
  }

  /** The 28 relabelled rows land in 28 different cells of the grid. */
  lemma ExtendedCellsDistinct(i: nat, j: nat, e: ElementRecord, f: ElementRecord)
    requires (56 <= i < 70 || 88 <= i < 102) && (56 <= j < 70 || 88 <= j < 102) && i != j
    ensures (ExtendedRow(i, e).period, ExtendedRow(i, e).group) != (ExtendedRow(j, f).period, ExtendedRow(j, f).group)
  {
    if ExtendedRow(i, e).period == ExtendedRow(j, f).period && ExtendedRow(i, e).group == ExtendedRow(j, f).group {
      if 56 <= i < 70 {
        assert 56 <= j < 70;
        StrInjective(i - 52, j - 52);
      } else {
        assert 88 <= j < 102;
        StrInjective(i - 84, j - 84);
      }
    }
  }
}
