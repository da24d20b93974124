/**
 * The transaction list: the spreadsheet export, the type labels and amount
 * signs it shows, the empty state, and the newest-first ordering that the
 * list applies to the transactions array in place before drawing the table.
 *
 * The workbook library calls, the date's locale formatting and the amount's
 * two-decimal formatting are not modelled.
 */
module TransactionList {
  import opened Types
  import opened IsoDate
  import Dashboard
  import Ledger

  // ---------------------------------------------------------------------
  // Labels and signs.
  // ---------------------------------------------------------------------

  /** The Portuguese label of a tag, as written in the export's type column. */
  function TypeLabel(k: TransactionType): (r: string)
    ensures r == "Receita" <==> k == INCOME
    ensures r == "Despesa" <==> k == EXPENSE
    ensures r == "Imposto" <==> k == TAX
  {
    match k
    case INCOME => "Receita"
    case EXPENSE => "Despesa"
    case TAX => "Imposto"
  }

  /** Reading a label back. */
  function LabelType(text: string): (r: Option<TransactionType>)
    ensures r.Some? ==> TypeLabel(r.value) == text
  {
    if text == "Receita" then Some(INCOME)
    else if text == "Despesa" then Some(EXPENSE)
    else if text == "Imposto" then Some(TAX)
    else None
  }

  /** Each tag's label reads back as that tag, so the three labels are distinct. */
  lemma TypeLabelRoundTrip(k: TransactionType)
    ensures LabelType(TypeLabel(k)) == Some(k)
  {
  }

  /** The sign shown before an amount. */
  function SignPrefix(t: Transaction): (r: string)
    ensures r == "+" || r == "-"
    ensures r == "+" <==> t.txType == INCOME
  {
    if t.txType == INCOME then "+" else "-"
  }

  /** The sign shown agrees with how the record moves the dashboard balance. */
  lemma SignPrefixMatchesBalance(t: Transaction)
    requires t.amount > 0.0
    ensures SignPrefix(t) == "+" <==> Dashboard.Signed(t) > 0.0
    ensures SignPrefix(t) == "-" <==> Dashboard.Signed(t) < 0.0
  {
  }

  // ---------------------------------------------------------------------
  // The export.
  // ---------------------------------------------------------------------

  /** A spreadsheet cell: text, or a number. */
  datatype Cell = Text(text: string) | Number(number: real)

  type Row = seq<Cell>

  function ExportHeader(): (h: Row)
    ensures |h| == 5
    ensures forall i :: 0 <= i < |h| ==> h[i].Text?
  {
    [Text("Data"), Text("Descrição"), Text("Categoria"), Text("Tipo"), Text("Valor")]
  }

  /** The row of one transaction: date, description, category, type label, amount. */
  function ExportRow(t: Transaction): (r: Row)
    ensures |r| == 5 && r[4] == Number(t.amount)
    ensures forall i :: 0 <= i < 4 ==> r[i].Text?
    ensures LabelType(r[3].text) == Some(t.txType)
  {
    [Text(t.date), Text(t.description), Text(t.category), Text(TypeLabel(t.txType)), Number(t.amount)]
  }

  /** The sheet handed to the workbook: the header, then one row per transaction in list order. */
  function ExportSheet(ts: seq<Transaction>): (rows: seq<Row>)
    ensures |rows| == |ts| + 1
    ensures rows[0] == ExportHeader()
  {
    [ExportHeader()] + seq(|ts|, i requires 0 <= i < |ts| => ExportRow(ts[i]))
  }

  /** Reading a data row back into the fields it was made from. */
  function ParseRow(row: Row): Option<TransactionInput>
  {
    if |row| == 5 && row[0].Text? && row[1].Text? && row[2].Text? && row[3].Text? && row[4].Number?
    then
      match LabelType(row[3].text)
      case None => None
      case Some(k) => Some(TransactionInput(row[1].text, row[4].number, row[0].text, k, row[2].text))
    else None
  }

  /** Row i + 1 of the sheet carries every field of transaction i except its id. */
  lemma ExportRowRoundTrip(ts: seq<Transaction>, i: nat)
    requires i < |ts|
    ensures ParseRow(ExportSheet(ts)[i + 1]) == Some(StripId(ts[i]))
  {
    TypeLabelRoundTrip(ts[i].txType);
  }

  /** The header is not a data row. */
  lemma HeaderIsNotARow()
    ensures ParseRow(ExportHeader()) == None
  {
    assert ExportHeader()[3].text == "Tipo";
  }

  /** Reading every data row of a sheet; None if any row does not read. */
  function ReadRows(rows: seq<Row>): Option<seq<TransactionInput>>
  {
    if rows == [] then Some([])
    else match (ParseRow(rows[0]), ReadRows(rows[1..]))
      case (Some(x), Some(xs)) => Some([x] + xs)
      case _ => None
  }

  function StripIds(ts: seq<Transaction>): (r: seq<TransactionInput>)
    ensures |r| == |ts|
    ensures forall i :: 0 <= i < |ts| ==> r[i] == StripId(ts[i])
  {
    if ts == [] then [] else [StripId(ts[0])] + StripIds(ts[1..])
  }

  /** The whole export reads back as the list, in order, without ids. */
  lemma {:induction false} ExportRoundTrip(ts: seq<Transaction>)
    ensures ReadRows(ExportSheet(ts)[1..]) == Some(StripIds(ts))
  {
    if ts != [] {
      ExportRoundTrip(ts[1..]);
      assert ExportSheet(ts)[1..][1..] == ExportSheet(ts[1..])[1..];
      ExportRowRoundTrip(ts, 0);
    } else {
      assert ExportSheet(ts)[1..] == [];
    }
  }

  // ---------------------------------------------------------------------
  // The displayed table.
  // ---------------------------------------------------------------------

  /** A table row as shown: its fields, the sign, and the id its delete button reports. */
  datatype DisplayRow = DisplayRow(date: string, description: string, category: string, sign: string, amount: real, deleteId: string)

  datatype ListView = EmptyState | Table(rows: seq<DisplayRow>)

  function DisplayRowOf(t: Transaction): (r: DisplayRow)
    ensures r.deleteId == t.id
    ensures r.sign == "+" <==> t.txType == INCOME
    ensures r.amount == t.amount
  {
    DisplayRow(t.date, t.description, t.category, SignPrefix(t), t.amount, t.id)
  }

  /** Pressing the delete button of row i reports exactly that record's id, and deleting it drops the record. */
  lemma DeleteReportsRowId(ts: seq<Transaction>, i: nat)
    requires i < |ts|
    ensures DisplayRowOf(ts[i]).deleteId == ts[i].id
    ensures ts[i] !in Ledger.WithoutId(ts, DisplayRowOf(ts[i]).deleteId)
  {
  }

  /** Newest first: no record is older than one after it. */
  predicate NewestFirst(s: seq<Transaction>)
  {
    forall i, j :: 0 <= i < j < |s| ==> LexLe(s[j].date, s[i].date)
  }

  /** With well-formed dates, newest first means every record is chronologically no earlier than those after it. */
  lemma NewestFirstIsChronological(s: seq<Transaction>, i: nat, j: nat)
    requires NewestFirst(s)
    requires i < j < |s|
    requires IsIsoDate(s[i].date) && IsIsoDate(s[j].date)
    ensures Chronological(s[j].date, s[i].date)
  {
    IsoDateOrder(s[j].date, s[i].date);
  }

  /** The in-place sort: the array ends newest first and holds the same records. */
  method SortNewestFirst(a: array<Transaction>)
    modifies a
    ensures NewestFirst(a[..])
    ensures multiset(a[..]) == multiset(old(a[..]))
  {
    var i := 0;
    while i < a.Length
      invariant 0 <= i <= a.Length
      invariant NewestFirst(a[..i])
      invariant multiset(a[..]) == multiset(old(a[..]))
    {
      InsertOne(a, i);
      i := i + 1;
    }
    assert a[..] == a[..a.Length];
  }

  /** Moves a[i] toward the front past every strictly older record. */
  method InsertOne(a: array<Transaction>, i: nat)
    requires i < a.Length
    requires NewestFirst(a[..i])
    modifies a
    ensures NewestFirst(a[..i + 1])
    ensures multiset(a[..]) == multiset(old(a[..]))
    ensures a[i + 1..] == old(a[i + 1..])
  {
    assert SortedExceptAt(a[..i + 1], i);
    var j := i;
    while j > 0 && !LexLe(a[j].date, a[j - 1].date)
      invariant 0 <= j <= i
      invariant multiset(a[..]) == multiset(old(a[..]))
      invariant a[i + 1..] == old(a[i + 1..])
      invariant SortedExceptAt(a[..i + 1], j)
    {
      ghost var before := a[..i + 1];
      LexLeTotal(a[j].date, a[j - 1].date);
      SwapDown(a, j);
      assert a[..i + 1] == before[j - 1 := before[j]][j := before[j - 1]];
      SortedExceptAtStep(before, j);
      j := j - 1;
    }
    SortedExceptAtDone(a[..i + 1], j);
  }

  /** Exchanges a[j - 1] and a[j]. */
  method SwapDown(a: array<Transaction>, j: nat)
    requires 0 < j < a.Length
    modifies a
    ensures a[..] == old(a[..])[j - 1 := old(a[j])][j := old(a[j - 1])]
    ensures multiset(a[..]) == multiset(old(a[..]))
  {
    a[j - 1], a[j] := a[j], a[j - 1];
  }

  /**
   * The insertion invariant: s is newest first apart from its element at j,
   * which is no older than anything after it, and its neighbours are in order.
   */
  predicate SortedExceptAt(s: seq<Transaction>, j: nat)
  {
    && j < |s|
    && (forall p, q :: 0 <= p < q < |s| && p != j && q != j ==> LexLe(s[q].date, s[p].date))
    && (forall q :: j < q < |s| ==> LexLe(s[q].date, s[j].date))
    && (0 < j < |s| - 1 ==> LexLe(s[j + 1].date, s[j - 1].date))
  }

  lemma SortedExceptAtStep(s: seq<Transaction>, j: nat)
    requires SortedExceptAt(s, j)
    requires 0 < j && !LexLe(s[j].date, s[j - 1].date)
    ensures SortedExceptAt(s[j - 1 := s[j]][j := s[j - 1]], j - 1)
  {
    LexLeTotal(s[j].date, s[j - 1].date);
  }

  lemma SortedExceptAtDone(s: seq<Transaction>, j: nat)
    requires SortedExceptAt(s, j)
    requires j == 0 || LexLe(s[j].date, s[j - 1].date)
    ensures NewestFirst(s)
  {
    forall p, q | 0 <= p < q < |s| ensures LexLe(s[q].date, s[p].date) {
      if q == j && p < j - 1 {
        LexLeTransitive(s[j].date, s[j - 1].date, s[p].date);
      }
    }
  }

  /** The table rows of a list, one per record, in list order. */
  function DisplayRows(s: seq<Transaction>): (rows: seq<DisplayRow>)
    ensures |rows| == |s|
    ensures forall i :: 0 <= i < |s| ==> rows[i] == DisplayRowOf(s[i])
  {
    seq(|s|, i requires 0 <= i < |s| => DisplayRowOf(s[i]))
  }

  /**
   * Rendering the list as written: the empty state for an empty array;
   * otherwise the array itself is sorted in place and drawn as one row per record.
   */
  method Render(a: array<Transaction>) returns (view: ListView)
    modifies a
    ensures view.EmptyState? <==> a.Length == 0
    ensures view.Table? ==> view.rows == DisplayRows(a[..])
    ensures NewestFirst(a[..])
    ensures multiset(a[..]) == multiset(old(a[..]))
  {
    if a.Length == 0 {
      return EmptyState;
    }
    SortNewestFirst(a);
    view := Table(DisplayRows(a[..]));
  }

  /**
   * Rendering from a copy: the same view, drawn from a newest-first
   * permutation of the list, while the list itself is left as it was.
   */
  method RenderCopy(ts: seq<Transaction>) returns (view: ListView, shown: seq<Transaction>)
    ensures view.EmptyState? <==> ts == []
    ensures NewestFirst(shown) && multiset(shown) == multiset(ts)
    ensures view.Table? ==> view.rows == DisplayRows(shown)
  {
    if ts == [] {
      return EmptyState, [];
    }
    var a := new Transaction[|ts|](i requires 0 <= i < |ts| => ts[i]);
    assert a[..] == ts;
    SortNewestFirst(a);
    shown := a[..];
    view := Table(DisplayRows(shown));
  }

  /** Strings equal up to position k and larger at k are not below. */
  lemma {:induction false} LexLeFirstDifference(a: string, b: string, k: nat)
    requires k < |a| && k < |b|
    requires a[..k] == b[..k] && a[k] > b[k]
    ensures !LexLe(a, b)
  {
    if k > 0 {
      assert a[0] == a[..k][0] == b[..k][0] == b[0];
      assert a[1..][..k - 1] == a[..k][1..] == b[..k][1..] == b[1..][..k - 1];
      LexLeFirstDifference(a[1..], b[1..], k - 1);
    }
  }
}
