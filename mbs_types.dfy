/** The records of the Medicare Benefits Schedule fee table that the app reads. */
module MbsTypes {
  import opened Wrappers

  /** One fee-schedule record as the search endpoint returns it. Amounts are exact decimal dollars. */
  datatype SearchResultItem = SearchResultItem(
    itemCode: string,
    description: string,
    scheduleFee: real,
    benefit75Percent: real,
    benefit85Percent: real,
    isAssistEligible: bool,
    isAnaesEligible: bool)

  /** A row of the `mbs_items` table, reduced to the selected columns and the `effective_to` column the endpoint filters on. */
  datatype MbsRow = MbsRow(
    itemCode: string,
    description: string,
    scheduleFee: real,
    benefit75Percent: real,
    benefit85Percent: real,
    isAssistEligible: bool,
    isAnaesEligible: bool,
    effectiveTo: Option<string>)

  /** A row is current when its effective period is open-ended. */
  predicate IsCurrent(row: MbsRow) {
    row.effectiveTo.None?
  }

  /** The projection onto the selected columns. */
  function Select(row: MbsRow): SearchResultItem {
    SearchResultItem(row.itemCode, row.description, row.scheduleFee, row.benefit75Percent,
                     row.benefit85Percent, row.isAssistEligible, row.isAnaesEligible)
  }
}
