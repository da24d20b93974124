/**
 * The ledger's record types: the closed set of transaction tags, the
 * six-field transaction record, the input a form or an import supplies
 * (a record without its id), and the four dashboard totals.
 *
 * Amounts are JavaScript numbers in the application; here they are exact
 * `real`s, so no rounding is modelled.
 */
module Types {

  datatype Option<+T> = None | Some(value: T)

  /** The three tags. Every dispatch over a tag can be exhaustive. */
  datatype TransactionType = INCOME | EXPENSE | TAX

  /** The string value each tag carries at run time. */
  function TagName(k: TransactionType): (r: string)
    ensures r == "INCOME" <==> k == INCOME
    ensures r == "EXPENSE" <==> k == EXPENSE
    ensures r == "TAX" <==> k == TAX
  {
    match k
    case INCOME => "INCOME"
    case EXPENSE => "EXPENSE"
    case TAX => "TAX"
  }

  /** Reading a tag back from its string value, as code that compares against the literals does. */
  function ParseTag(s: string): (r: Option<TransactionType>)
    ensures r.Some? ==> TagName(r.value) == s
  {
    if s == "INCOME" then Some(INCOME)
    else if s == "EXPENSE" then Some(EXPENSE)
    else if s == "TAX" then Some(TAX)
    else None
  }

  /** Every tag's string value reads back as that tag, so no two tags share a value. */
  lemma TagNameRoundTrip(k: TransactionType)
    ensures ParseTag(TagName(k)) == Some(k)
  {
  }

  lemma TagNameInjective(k: TransactionType, l: TransactionType)
    ensures TagName(k) == TagName(l) <==> k == l
  {
    TagNameRoundTrip(k);
    TagNameRoundTrip(l);
  }

  /** One recorded financial event. `date` is meant to be a YYYY-MM-DD string. */
  datatype Transaction = Transaction(
    id: string,
    description: string,
    amount: real,
    date: string,
    txType: TransactionType,
    category: string)

  /** A transaction without its id: what the entry form and the import deliver. */
  datatype TransactionInput = TransactionInput(
    description: string,
    amount: real,
    date: string,
    txType: TransactionType,
    category: string)

  /** The record that results from giving an input an id (the object spread plus `id`). */
  function WithId(input: TransactionInput, id: string): (t: Transaction)
    ensures t.id == id
    ensures StripId(t) == input
  {
    Transaction(id, input.description, input.amount, input.date, input.txType, input.category)
  }

  /** Everything but the id. */
  function StripId(t: Transaction): TransactionInput
  {
    TransactionInput(t.description, t.amount, t.date, t.txType, t.category)
  }

  lemma StripIdThenWithId(t: Transaction)
    ensures WithId(StripId(t), t.id) == t
  {
  }

  /** The four dashboard totals. */
  datatype DashboardStats = DashboardStats(
    totalIncome: real,
    totalExpense: real,
    totalTax: real,
    balance: real)

  /** The ids occurring in a list of transactions. */
  function Ids(ts: seq<Transaction>): (r: set<string>)
    ensures forall i :: 0 <= i < |ts| ==> ts[i].id in r
    ensures forall x :: x in r ==> exists i :: 0 <= i < |ts| && ts[i].id == x
  {
    set i | 0 <= i < |ts| :: ts[i].id
  }

  /** No two records of the list share an id. */
  predicate UniqueIds(ts: seq<Transaction>)
  {
    forall i, j :: 0 <= i < j < |ts| ==> ts[i].id != ts[j].id
  }
}
