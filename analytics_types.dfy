/** The analytics view of a transaction: signless cents, a direction and classification flags. */
module AnalyticsTypes {
  import opened Wrappers
  import opened Calendar

  datatype Direction = Inflow | Outflow

  /** Classification flags; an absent flag is `None`. */
  datatype Meta = Meta(transfer: Option<bool>, refund: Option<bool>)

  const NoFlags := Meta(None, None)

  /**
   * A transaction for analytics. `date` is the calendar day the `'YYYY-MM-DD'` text names;
   * `isPending` is `false` where the source leaves it out.
   */
  datatype Txn = Txn(
    id: string,
    date: CivilDate,
    description: string,
    merchant: Option<string>,
    amountCents: int,
    direction: Direction,
    category: Option<string>,
    account: Option<string>,
    isPending: bool,
    meta: Meta)

  /** A flag that optional chaining reads as truthy. */
  predicate IsSet(flag: Option<bool>) {
    flag == Some(true)
  }

  /** One bucket of the income, expense and savings series; `bucket` is the first day of the bucket. */
  datatype SeriesPoint = SeriesPoint(bucket: CivilDate, incomeCents: int, expenseCents: int, savingsCents: int)

  datatype Grain = Week | Month | Quarter | Year

  /** Series options; `start` and `end` are inclusive whole days. */
  datatype SeriesOptions = SeriesOptions(grain: Option<Grain>, start: CivilDate, end: CivilDate)
}
