/**
 * The application's transaction store: the list of records, the active tab,
 * and the three operations that replace the list (add one record, remove by
 * id, append an imported batch), plus the startup load.
 *
 * Random id generation is not modelled: the new id is a parameter. The
 * persisted snapshot is an `Option`, where `None` stands for a missing slot
 * or one whose content does not parse.
 */
module Ledger {
  import opened Types

  datatype Tab = DashboardTab | ListTab

  /** The list with every record carrying id `id` dropped (the `filter`). */
  function WithoutId(ts: seq<Transaction>, id: string): (r: seq<Transaction>)
    ensures |r| <= |ts|
    ensures forall t :: t in r <==> t in ts && t.id != id
  {
    if ts == [] then []
    else if ts[0].id == id then WithoutId(ts[1..], id)
    else [ts[0]] + WithoutId(ts[1..], id)
  }

  /** Filtering distributes over concatenation, so the kept records stay in their order. */
  lemma {:induction false} WithoutIdAppend(a: seq<Transaction>, b: seq<Transaction>, id: string)
    ensures WithoutId(a + b, id) == WithoutId(a, id) + WithoutId(b, id)
  {
    if a == [] {
      assert a + b == b;
    } else {
      assert (a + b)[0] == a[0];
      assert (a + b)[1..] == a[1..] + b;
      WithoutIdAppend(a[1..], b, id);
    }
  }

  /** One record survives the filter exactly when its id differs. */
  lemma WithoutIdSingle(t: Transaction, id: string)
    ensures WithoutId([t], id) == if t.id == id then [] else [t]
  {
    assert [t][1..] == [];
  }

  /** Removing an id that no record carries leaves the list unchanged. */
  lemma {:induction false} WithoutAbsentId(ts: seq<Transaction>, id: string)
    requires id !in Ids(ts)
    ensures WithoutId(ts, id) == ts
  {
    if ts != [] {
      assert Ids(ts[1..]) <= Ids(ts) by {
        forall x | x in Ids(ts[1..]) ensures x in Ids(ts) {
          var i :| 0 <= i < |ts[1..]| && ts[1..][i].id == x;
          assert ts[i + 1].id == x;
        }
      }
      WithoutAbsentId(ts[1..], id);
      assert ts == [ts[0]] + ts[1..];
    }
  }

  /** After removal no record carries the id. */
  lemma WithoutIdRemovesAll(ts: seq<Transaction>, id: string)
    ensures id !in Ids(WithoutId(ts, id))
  {
    var r := WithoutId(ts, id);
    forall i | 0 <= i < |r| ensures r[i].id != id {
      assert r[i] in r;
    }
  }

  /** Removing the same id twice is removing it once. */
  lemma WithoutIdIdempotent(ts: seq<Transaction>, id: string)
    ensures WithoutId(WithoutId(ts, id), id) == WithoutId(ts, id)
  {
    WithoutIdRemovesAll(ts, id);
    WithoutAbsentId(WithoutId(ts, id), id);
  }

  /** Adding a record under an id not yet present and then removing that id restores the list. */
  lemma AddThenRemove(ts: seq<Transaction>, input: TransactionInput, id: string)
    requires id !in Ids(ts)
    ensures WithoutId(ts + [WithId(input, id)], id) == ts
  {
    WithoutIdAppend(ts, [WithId(input, id)], id);
    WithoutIdSingle(WithId(input, id), id);
    WithoutAbsentId(ts, id);
  }

  /** Removal keeps ids unique. */
  lemma {:induction false} WithoutIdKeepsUnique(ts: seq<Transaction>, id: string)
    requires UniqueIds(ts)
    ensures UniqueIds(WithoutId(ts, id))
  {
    if ts != [] {
      WithoutIdKeepsUnique(ts[1..], id);
      var rest := WithoutId(ts[1..], id);
      if ts[0].id != id {
        forall j | 0 <= j < |rest| ensures rest[j].id != ts[0].id {
          assert rest[j] in ts[1..];
          var k :| 0 <= k < |ts[1..]| && ts[1..][k] == rest[j];
          assert ts[k + 1] == rest[j];
        }
        assert forall j :: 0 < j < |[ts[0]] + rest| ==> ([ts[0]] + rest)[j] == rest[j - 1];
      }
    }
  }

  /** Appending a record whose id is new keeps ids unique. */
  lemma AddFreshKeepsUnique(ts: seq<Transaction>, t: Transaction)
    requires UniqueIds(ts)
    requires t.id !in Ids(ts)
    ensures UniqueIds(ts + [t])
  {
  }

  /** Appending a batch keeps ids unique when the batch's ids are unique and new. */
  lemma ImportKeepsUnique(ts: seq<Transaction>, imported: seq<Transaction>)
    requires UniqueIds(ts) && UniqueIds(imported)
    requires Ids(ts) !! Ids(imported)
    ensures UniqueIds(ts + imported)
  {
    var all := ts + imported;
    forall i, j | 0 <= i < j < |all| ensures all[i].id != all[j].id {
      if j >= |ts| && i < |ts| {
        assert all[i].id in Ids(ts);
        assert all[j] == imported[j - |ts|];
        assert all[j].id in Ids(imported);
      }
    }
  }

  /** The list at startup: the snapshot's list, or empty when it is missing or malformed. */
  function Load(snapshot: Option<seq<Transaction>>): (ts: seq<Transaction>)
    ensures snapshot.None? ==> ts == []
    ensures snapshot.Some? ==> ts == snapshot.value
  {
    match snapshot
    case None => []
    case Some(saved) => saved
  }

  class App {
    var transactions: seq<Transaction>
    var activeTab: Tab
    var showForm: bool
    var showImport: bool

    /** Startup: the dashboard tab, no dialog open, and the loaded list. */
    constructor (snapshot: Option<seq<Transaction>>)
      ensures transactions == Load(snapshot)
      ensures snapshot.None? ==> transactions == []
      ensures activeTab == DashboardTab && !showForm && !showImport
    {
      transactions := Load(snapshot);
      activeTab := DashboardTab;
      showForm := false;
      showImport := false;
    }

    /** A tab button. */
    method SelectTab(tab: Tab)
      modifies this
      ensures activeTab == tab
      ensures transactions == old(transactions) && showForm == old(showForm) && showImport == old(showImport)
    {
      activeTab := tab;
    }

    /** Opening or closing the entry form. */
    method SetShowForm(open: bool)
      modifies this
      ensures showForm == open
      ensures transactions == old(transactions) && activeTab == old(activeTab) && showImport == old(showImport)
    {
      showForm := open;
    }

    /** Opening or closing the import dialog. */
    method SetShowImport(open: bool)
      modifies this
      ensures showImport == open
      ensures transactions == old(transactions) && activeTab == old(activeTab) && showForm == old(showForm)
    {
      showImport := open;
    }

    /** `addTransaction`: one record with the given id appended at the end. */
    method AddTransaction(input: TransactionInput, newId: string)
      modifies this
      ensures transactions == old(transactions) + [WithId(input, newId)]
      ensures |transactions| == |old(transactions)| + 1
      ensures transactions[..|old(transactions)|] == old(transactions)
      ensures StripId(transactions[|transactions| - 1]) == input
      ensures activeTab == old(activeTab) && showForm == old(showForm) && showImport == old(showImport)
    {
      var newTransaction := WithId(input, newId);
      transactions := transactions + [newTransaction];
    }

    /** `removeTransaction`: keeps, in order, every record whose id differs. */
    method RemoveTransaction(id: string)
      modifies this
      ensures transactions == WithoutId(old(transactions), id)
      ensures id !in Ids(transactions)
      ensures id !in Ids(old(transactions)) ==> transactions == old(transactions)
      ensures activeTab == old(activeTab) && showForm == old(showForm) && showImport == old(showImport)
    {
      WithoutIdRemovesAll(transactions, id);
      if id !in Ids(transactions) {
        WithoutAbsentId(transactions, id);
      }
      transactions := WithoutId(transactions, id);
    }

    /** `handleSmartImport`: the imported batch appended as-is, then the list tab shown. */
    method HandleSmartImport(imported: seq<Transaction>)
      modifies this
      ensures transactions == old(transactions) + imported
      ensures transactions[..|old(transactions)|] == old(transactions)
      ensures transactions[|old(transactions)|..] == imported
      ensures activeTab == ListTab
      ensures showForm == old(showForm) && showImport == old(showImport)
    {
      transactions := transactions + imported;
      activeTab := ListTab;
    }
  }
}
