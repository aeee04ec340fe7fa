/** The transactions page: an in-memory list with add, delete, clear and edit. */
module TransactionsPage {
  import opened Types
  import MockData

  /** What the add-transaction form submits; `amount` is `parseFloat(data.amount)` in cents. */
  datatype FormData = FormData(date: Date, kind: TxType, category: string, amount: int, description: Option<string>)

  /** The record `handleFormSubmit` builds around a fresh `uuidv4()` id. */
  function NewTransaction(form: FormData, freshId: string): (t: Transaction)
    ensures t.id == freshId && t.date == form.date && t.kind == form.kind
    ensures t.category == form.category && t.amount == form.amount && t.description == form.description
    ensures t.merchant == None && t.importedFrom == None
  {
    Transaction(freshId, form.date, form.kind, form.category, form.amount, form.description, None, None)
  }

  /** `prev.filter(transaction => transaction.id !== id)`. */
  function WithoutId(s: seq<Transaction>, id: string): (r: seq<Transaction>)
    ensures |r| <= |s|
    ensures forall t :: t in r <==> t in s && t.id != id
  {
    if s == [] then []
    else (if s[0].id == id then [] else [s[0]]) + WithoutId(s[1..], id)
  }

  /** Deleting distributes over concatenation, so the kept elements stay in their order. */
  lemma {:induction false} WithoutIdAppend(a: seq<Transaction>, b: seq<Transaction>, id: string)
    ensures WithoutId(a + b, id) == WithoutId(a, id) + WithoutId(b, id)
  {
    if a == [] {
      assert a + b == b;
    } else {
      assert (a + b)[1..] == a[1..] + b;
      WithoutIdAppend(a[1..], b, id);
    }
  }

  /** Deleting an id that no element carries leaves the list as it is. */
  lemma {:induction false} WithoutAbsentId(s: seq<Transaction>, id: string)
    requires forall t :: t in s ==> t.id != id
    ensures WithoutId(s, id) == s
  {
    if s != [] {
      WithoutAbsentId(s[1..], id);
    }
  }

  /** Deleting the same id twice is deleting it once. */
  lemma WithoutIdIdempotent(s: seq<Transaction>, id: string)
    ensures WithoutId(WithoutId(s, id), id) == WithoutId(s, id)
  {
    WithoutAbsentId(WithoutId(s, id), id);
  }

  /** Deleting an id empties the list exactly when every element carries that id. */
  lemma WithoutIdEmpty(s: seq<Transaction>, id: string)
    ensures |WithoutId(s, id)| == 0 <==> forall t :: t in s ==> t.id == id
  {
    if |WithoutId(s, id)| != 0 {
      assert WithoutId(s, id)[0] in WithoutId(s, id);
    }
  }

  /** Adding a transaction under a fresh id and deleting that id gives the old list back. */
  lemma DeleteUndoesAdd(s: seq<Transaction>, t: Transaction)
    requires forall u :: u in s ==> u.id != t.id
    ensures WithoutId([t] + s, t.id) == s
  {
    WithoutIdAppend([t], s, t.id);
    WithoutAbsentId(s, t.id);
  }

  class Page {
    var transactions: seq<Transaction>

    /** `useState(generateMockTransactions(20))`. */
    constructor(draws: seq<MockData.MockDraw>)
      requires |draws| >= 20
      requires forall i :: 0 <= i < |draws| ==> MockData.ValidDraw(draws[i])
      ensures |transactions| == 20
      ensures forall i, j :: 0 <= i < j < |transactions| ==>
                transactions[i].date.time >= transactions[j].date.time
      ensures multiset(transactions) == multiset(MockData.MockBatch(draws[..20]))
      ensures forall t :: t in transactions ==> t.category in MockData.CategoriesFor(t.kind)
    {
      var initial := MockData.GenerateMockTransactions(20, draws);
      transactions := initial;
      new;
      assert forall i, j :: 0 <= i < j < |initial| ==>
               MockData.TimeOf(initial[i]) >= MockData.TimeOf(initial[j]);
    }

    /** `handleFormSubmit`: the new transaction goes in front. */
    method HandleFormSubmit(form: FormData, freshId: string)
      modifies this
      ensures transactions == [NewTransaction(form, freshId)] + old(transactions)
      ensures |transactions| == |old(transactions)| + 1
      ensures !ClearAllDisabled()
    {
      transactions := [NewTransaction(form, freshId)] + transactions;
    }

    /** `handleEditTransaction`: only a notice; the list is not touched. */
    method HandleEditTransaction(id: string) returns (notice: Toast)
      ensures notice.title == "Edit Transaction"
      ensures notice.description
              == "Editing transaction " + id + ". This feature would be implemented in the full version."
    {
      notice := Toast("Edit Transaction",
                      "Editing transaction " + id + ". This feature would be implemented in the full version.");
    }

    /** `handleDeleteTransaction`: every element with this id goes, the rest keep their order. */
    method HandleDeleteTransaction(id: string)
      modifies this
      ensures transactions == WithoutId(old(transactions), id)
      ensures forall t :: t in transactions ==> t.id != id
      ensures ClearAllDisabled() <==> forall t :: t in old(transactions) ==> t.id == id
    {
      WithoutIdEmpty(transactions, id);
      transactions := WithoutId(transactions, id);
    }

    /** `handleClearAll`. */
    method HandleClearAll()
      modifies this
      ensures transactions == []
      ensures ClearAllDisabled()
    {
      transactions := [];
    }

    /** The Clear All button's `disabled` flag. */
    function ClearAllDisabled(): bool
      reads this
    {
      |transactions| == 0
    }
  }
}
