/** The budget line items the widget fetches and displays. */
module BudgetRecords {
  import opened Wrappers

  /** Record identifiers are opaque to the widget; only equality matters. */
  type RecordId = int

  /** The category a budget line belongs to (display token and label). */
  datatype Category = Category(color: string, name: string)

  /**
   * A budget line as the budget service returns it. Both amounts are
   * integers in the currency's minor unit (cents), directly comparable.
   * `createdAt` is an opaque timestamp.
   */
  datatype BudgetRecord = BudgetRecord(
    id: RecordId,
    category: Option<Category>,
    amountInCents: int,
    currentSpending: int,
    createdAt: int
  )
}
