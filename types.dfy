/** The transaction record shared by every part of the application. */
module Types {

  datatype Option<+T> = None | Some(value: T)

  /** A transaction's direction: money received or money spent. */
  datatype TxType = Income | Expense

  /** The values of the `imported_from` column. */
  datatype Origin = Manual | WeChat | Receipt | File

  /** A calendar month, 0 = January. */
  type Month = m: int | 0 <= m < 12

  /**
   * A JavaScript Date as the core uses it. `time` is the timestamp that
   * ordering compares; `month` is the local calendar month that
   * toLocaleString reports; `isoDay` is the YYYY-MM-DD part of
   * toISOString(). How the last two follow from the first (calendar and
   * time zone) is not modelled: they are given with the date.
   */
  datatype Date = Date(time: int, month: Month, isoDay: string)

  /** A transaction; `amount` is in cents and its sign is not used for direction. */
  datatype Transaction = Transaction(
    id: string,
    date: Date,
    kind: TxType,
    category: string,
    amount: int,
    description: Option<string>,
    merchant: Option<string>,
    importedFrom: Option<Origin>)

  /** The short English month names, in calendar order. */
  const MonthNames: seq<string> :=
    ["Jan", "Feb", "Mar", "Apr", "May", "Jun", "Jul", "Aug", "Sep", "Oct", "Nov", "Dec"]

  /** A toast notification shown to the user. */
  datatype Toast = Toast(title: string, description: string)

  /** JavaScript truthiness of an optional string: present and not empty. */
  predicate Truthy(s: Option<string>) {
    s.Some? && s.value != ""
  }
}
