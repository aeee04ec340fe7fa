/**
 * The field-renaming mappers between a row of the `transactions` table and
 * the application's transaction record.
 */
module StoreMapping {
  import opened Types

  /** A row as the store returns it. */
  datatype DbTransaction = DbTransaction(
    id: string,
    userId: Option<string>,
    date: string,
    kind: TxType,
    category: string,
    amount: int,
    description: Option<string>,
    createdAt: string,
    merchantName: Option<string>,
    importedFrom: Option<Origin>)

  /** A `Partial<Transaction>`: every field may be absent. */
  datatype TransactionDraft = TransactionDraft(
    id: Option<string>,
    date: Option<Date>,
    kind: Option<TxType>,
    category: Option<string>,
    amount: Option<int>,
    description: Option<string>,
    merchant: Option<string>,
    importedFrom: Option<Origin>)

  /** The `Partial<DbTransaction>` that `mapTransactionToDb` builds: `id` and `date` are always set. */
  datatype DbDraft = DbDraft(
    id: string,
    date: string,
    kind: Option<TxType>,
    category: Option<string>,
    amount: Option<int>,
    description: Option<string>,
    merchantName: Option<string>,
    importedFrom: Option<Origin>)

  /**
   * `mapDbToTransaction`. `parsed` is the Date that `new Date(row.date)`
   * yields; date parsing is not modelled.
   */
  function MapDbToTransaction(row: DbTransaction, parsed: Date): (t: Transaction)
    ensures t.id == row.id && t.kind == row.kind && t.category == row.category && t.amount == row.amount
    ensures t.description == row.description
    ensures t.merchant == row.merchantName && t.importedFrom == row.importedFrom
    ensures t.date == parsed
  {
    Transaction(row.id, parsed, row.kind, row.category, row.amount,
                row.description, row.merchantName, row.importedFrom)
  }

  /**
   * `mapTransactionToDb`. `freshId` is the value `uuidv4()` would produce and
   * `today` the current date; `transaction.id || uuidv4()` keeps a non-empty
   * id and replaces a missing or empty one.
   */
  function MapTransactionToDb(t: TransactionDraft, freshId: string, today: Date): (d: DbDraft)
    ensures t.id.Some? && t.id.value != "" ==> d.id == t.id.value
    ensures t.id.None? || t.id.value == "" ==> d.id == freshId
    ensures d.date == (if t.date.Some? then t.date.value.isoDay else today.isoDay)
    ensures d.kind == t.kind && d.category == t.category && d.amount == t.amount
    ensures d.description == t.description
    ensures d.merchantName == t.merchant && d.importedFrom == t.importedFrom
  {
    DbDraft(if Truthy(t.id) then t.id.value else freshId,
            if t.date.Some? then t.date.value.isoDay else today.isoDay,
            t.kind, t.category, t.amount, t.description, t.merchant, t.importedFrom)
  }

  /** The draft of a complete transaction: every field present. */
  function DraftOf(t: Transaction): TransactionDraft
  {
    TransactionDraft(Some(t.id), Some(t.date), Some(t.kind), Some(t.category), Some(t.amount),
                     t.description, t.merchant, t.importedFrom)
  }

  /** `row` is what the store holds after inserting `d`: every field `d` sets is stored unchanged. */
  ghost predicate StoredFrom(row: DbTransaction, d: DbDraft)
  {
    && row.id == d.id
    && row.date == d.date
    && d.kind == Some(row.kind)
    && d.category == Some(row.category)
    && d.amount == Some(row.amount)
    && row.description == d.description
    && row.merchantName == d.merchantName
    && row.importedFrom == d.importedFrom
  }

  /**
   * Writing a transaction and reading the stored row back keeps id (a fresh
   * one when it was empty), type, category, amount, description, merchant
   * and origin, and the calendar day when the parsed date reports it.
   */
  lemma RoundTrip(t: Transaction, freshId: string, today: Date, row: DbTransaction, parsed: Date)
    requires StoredFrom(row, MapTransactionToDb(DraftOf(t), freshId, today))
    requires parsed.isoDay == row.date
    ensures MapDbToTransaction(row, parsed)
            == t.(id := if t.id == "" then freshId else t.id, date := parsed)
    ensures MapDbToTransaction(row, parsed).date.isoDay == t.date.isoDay
  {
  }
}
