/**
  The schema registry: where each of the five tables of the "Finances" sheet
  lives, as 0-based column slices of the grid, with its column names, the
  first-cell values that mark non-data rows, and for the two multi-section
  tables the rule that derives a date range from embedded "Date:" rows.
*/
module DdlSchema {
  import opened Wrappers

  /** 0-based row of the column headers. */
  const HEADER_ROW: nat := 3
  /** 0-based row of the first data row. */
  const DATA_START_ROW: nat := 4

  /** Python's `slice(start, stop)`: columns `start` up to, not including, `stop`. */
  datatype ColumnSlice = ColumnSlice(start: int, stop: int)

  /** The extra fields of a table whose rows are grouped under "Date:" headers. */
  datatype DateSections = DateSections(
    derivedColNames: seq<string>,
    dateMarker: string,
    dateValueColOffset: int)

  /** One table definition; `sections` is present exactly for multi-section tables. */
  datatype TableDef = TableDef(
    colSlice: ColumnSlice,
    colNames: seq<string>,
    skipMarkers: set<string>,
    sections: Option<DateSections>)

  const VarExpenses := TableDef(
    ColumnSlice(1, 9),
    ["description", "category", "store", "cost", "purchasing_date",
     "is_planned", "contains_indulgence", "sensitivities"],
    {"description", "border"},
    None)

  const Investments := TableDef(
    ColumnSlice(16, 28),
    ["execution_type", "description", "isin", "investment_type", "marketplace",
     "units", "price_per_unit", "total_price", "fees", "execution_date",
     "pct_of_profit_taxed", "profit_amt"],
    {"execution_type", "border"},
    None)

  const NewFoodItems := TableDef(
    ColumnSlice(41, 49),
    ["food_item", "brand", "store", "main_macro", "kcal_amount", "weight",
     "price", "last_update"],
    {"food_item", "[100 grams]", "border"},
    None)

  const FixedCosts := TableDef(
    ColumnSlice(10, 15),
    ["category", "description", "monthly_interval", "billed_cost", "monthly_cost"],
    {"category", "SUM", "border"},
    Some(DateSections(["effective_date", "expiration_date"], "Date:", 1)))

  const Income := TableDef(
    ColumnSlice(35, 39),
    ["description", "type", "monthly_interval", "value"],
    {"description", "border"},
    Some(DateSections(["effective_date", "expiration_date"], "Date:", 1)))

  /** The registry, in the order the tables appear in the sheet, left to right. */
  const Tables: seq<TableDef> := [VarExpenses, FixedCosts, Investments, Income, NewFoodItems]

  /** Number of grid columns a slice covers. */
  function Width(s: ColumnSlice): int { s.stop - s.start }

  /** Grid column `c` lies inside the slice. */
  predicate InSlice(s: ColumnSlice, c: int) { s.start <= c < s.stop }

  /** Two slices share no grid column. */
  predicate Disjoint(a: ColumnSlice, b: ColumnSlice) {
    a.stop <= b.start || b.stop <= a.start
  }

  /** No name appears twice. */
  predicate Distinct(names: seq<string>) {
    forall i, j :: 0 <= i < j < |names| ==> names[i] != names[j]
  }

  /** The date-section part is consistent with the table it belongs to. */
  predicate SectionsWellFormed(t: TableDef, d: DateSections) {
    && d.derivedColNames == ["effective_date", "expiration_date"]
    && 0 <= d.dateValueColOffset < Width(t.colSlice)
    && d.dateMarker !in t.skipMarkers
    && d.dateMarker != ""
    && (forall n :: n in d.derivedColNames ==> n !in t.colNames)
  }

  /**
    A table definition the extraction can rely on: a non-empty slice starting
    at a valid column, one distinct name per column, the repeated header label
    and the border decoration among the skip markers.
  */
  predicate WellFormed(t: TableDef) {
    && 0 <= t.colSlice.start < t.colSlice.stop
    && |t.colNames| == Width(t.colSlice)
    && Distinct(t.colNames)
    && t.colNames[0] in t.skipMarkers
    && "border" in t.skipMarkers
    && (t.sections.Some? ==> SectionsWellFormed(t, t.sections.value))
  }

  /**
    The names of an emitted record: the column names, followed for a
    multi-section table by the two derived date fields.
  */
  function OutputColumns(t: TableDef): (names: seq<string>)
    requires WellFormed(t)
    ensures |names| == Width(t.colSlice) + (if t.sections.Some? then 2 else 0)
    ensures names[..|t.colNames|] == t.colNames
    ensures t.sections.Some? ==> names[|t.colNames|..] == ["effective_date", "expiration_date"]
    ensures Distinct(names)
  {
    match t.sections
    case None => t.colNames
    case Some(d) =>
      var names := t.colNames + d.derivedColNames;
      assert forall i :: |t.colNames| <= i < |names| ==> names[i] in d.derivedColNames;
      assert forall i :: 0 <= i < |t.colNames| ==> names[i] in t.colNames;
      names
  }

  lemma DataStartsAfterHeader()
    ensures DATA_START_ROW == HEADER_ROW + 1
  {
  }

  lemma VarExpensesWellFormed() ensures WellFormed(VarExpenses) { }
  lemma FixedCostsWellFormed() ensures WellFormed(FixedCosts) { }
  lemma InvestmentsWellFormed() ensures WellFormed(Investments) { }
  lemma IncomeWellFormed() ensures WellFormed(Income) { }
  lemma NewFoodItemsWellFormed() ensures WellFormed(NewFoodItems) { }

  /** Every registered table is well-formed. */
  lemma TablesWellFormed()
    ensures forall i :: 0 <= i < |Tables| ==> WellFormed(Tables[i])
  {
    VarExpensesWellFormed();
    FixedCostsWellFormed();
    InvestmentsWellFormed();
    IncomeWellFormed();
    NewFoodItemsWellFormed();
  }

  /** The column counts of the five tables, in sheet order. */
  lemma TableWidths()
    ensures forall i :: 0 <= i < |Tables| ==> |Tables[i].colNames| == Width(Tables[i].colSlice)
    ensures |VarExpenses.colNames| == 8 && |FixedCosts.colNames| == 5 && |Investments.colNames| == 12
    ensures |Income.colNames| == 4 && |NewFoodItems.colNames| == 8
  {
  }

  /** The slices lie left to right in registry order, so no two overlap. */
  lemma SlicesOrdered()
    ensures forall i :: 0 <= i < |Tables| - 1 ==> Tables[i].colSlice.stop <= Tables[i + 1].colSlice.start
    ensures forall i, j :: 0 <= i < j < |Tables| ==> Disjoint(Tables[i].colSlice, Tables[j].colSlice)
  {
  }

  /** Each grid column belongs to at most one table. */
  lemma {:induction false} ColumnOwnerUnique(c: int, i: nat, j: nat)
    requires i < |Tables| && j < |Tables|
    requires InSlice(Tables[i].colSlice, c) && InSlice(Tables[j].colSlice, c)
    ensures i == j
  {
    SlicesOrdered();
  }

  /** Exactly the fixed-costs and income tables are multi-section. */
  lemma MultiSectionTables()
    ensures forall i :: 0 <= i < |Tables| ==>
      (Tables[i].sections.Some? <==> Tables[i] == FixedCosts || Tables[i] == Income)
    ensures FixedCosts.sections.value.dateMarker == "Date:" && FixedCosts.sections.value.dateValueColOffset == 1
    ensures Income.sections.value.dateMarker == "Date:" && Income.sections.value.dateValueColOffset == 1
  {
  }
}
