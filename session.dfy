/**
 * How the application wires its dialogs to the store: the entry form's add
 * callback is `addTransaction` and its close callback hides the form; the
 * import dialog's import callback is `handleSmartImport` and its close
 * callback hides the dialog.
 */
module Session {
  import opened Types
  import opened Ledger
  import TransactionForm
  import SmartImport
  import opened TransactionList

  /**
   * Submitting the entry form. `newId` stands for the random id the store
   * draws. A rejected submit changes nothing; an accepted one appends the
   * entered record under that id and hides the form.
   */
  method SubmitForm(app: App, form: TransactionForm.Form, parsedAmount: real, newId: string)
    modifies app
    ensures !TransactionForm.SubmitGuard(form.description, form.amount, form.category) ==>
      app.transactions == old(app.transactions) && app.showForm == old(app.showForm)
    ensures TransactionForm.SubmitGuard(form.description, form.amount, form.category) ==>
      && app.transactions == old(app.transactions) + [WithId(TransactionInput(form.description, parsedAmount, form.date, form.txType, form.category), newId)]
      && !app.showForm
    ensures app.activeTab == old(app.activeTab) && app.showImport == old(app.showImport)
  {
    var effects := form.HandleSubmit(parsedAmount);
    if |effects| == 2 {
      app.AddTransaction(effects[0].payload, newId);
      app.SetShowForm(false);
    }
  }

  /**
   * Confirming the import dialog. Without a preview nothing changes; with one
   * the preview is appended to the store, the list tab is shown and the
   * dialog is hidden.
   */
  method ConfirmImport(app: App, dialog: SmartImport.ImportDialog)
    modifies app
    ensures dialog.preview.None? ==>
      app.transactions == old(app.transactions) && app.activeTab == old(app.activeTab) && app.showImport == old(app.showImport)
    ensures dialog.preview.Some? ==>
      && app.transactions == old(app.transactions) + dialog.preview.value
      && app.activeTab == ListTab
      && !app.showImport
    ensures app.showForm == old(app.showForm)
  {
    var effects := dialog.HandleConfirm();
    if |effects| == 2 {
      app.HandleSmartImport(effects[0].batch);
      app.SetShowImport(false);
    }
  }

  /**
   * Drawing the list as the application does: the array the list sorts in
   * place is the store's own, so the store itself ends newest first.
   */
  method RenderListInPlace(app: App) returns (view: ListView)
    modifies app
    ensures view.EmptyState? <==> old(app.transactions) == []
    ensures NewestFirst(app.transactions)
    ensures multiset(app.transactions) == multiset(old(app.transactions))
    ensures view.Table? ==> view.rows == DisplayRows(app.transactions)
    ensures app.activeTab == old(app.activeTab) && app.showForm == old(app.showForm) && app.showImport == old(app.showImport)
  {
    var ts := app.transactions;
    var a := new Transaction[|ts|](i requires 0 <= i < |ts| => ts[i]);
    assert a[..] == ts;
    view := Render(a);
    app.transactions := a[..];
  }

  /**
   * The counterexample: two records stored oldest first. Any newest-first
   * permutation of them, which is what drawing the list leaves in the
   * store, is the reverse of the order they were added in.
   */
  lemma StoreReorderedByRender(x: Transaction, y: Transaction, s: seq<Transaction>)
    requires x.date == "2024-01-01" && y.date == "2024-02-01"
    requires NewestFirst(s) && multiset(s) == multiset([x, y])
    ensures s == [y, x] && s != [x, y]
  {
    assert |s| == 2 by { assert |multiset(s)| == |multiset([x, y])|; }
    assert x != y by { assert x.date[6] != y.date[6]; }
    assert s[0] in multiset(s) && s[1] in multiset(s);
    assert s == [s[0], s[1]];
    LexLeFirstDifference(y.date, x.date, 6);
    assert s[0] == s[1] ==> multiset(s)[s[0]] == 2;
  }

  /**
   * The counterexample end to end: a fresh store, a record dated 2024-01-01
   * added, then one dated 2024-02-01, then the list drawn as the application
   * draws it. The store now holds the later record first.
   */
  method AddTwoThenRender(older: TransactionInput, newer: TransactionInput, olderId: string, newerId: string)
    returns (app: App)
    requires older.date == "2024-01-01" && newer.date == "2024-02-01"
    ensures app.transactions == [WithId(newer, newerId), WithId(older, olderId)]
  {
    app := new App(None);
    app.AddTransaction(older, olderId);
    app.AddTransaction(newer, newerId);
    assert app.transactions == [WithId(older, olderId), WithId(newer, newerId)];
    var _ := RenderListInPlace(app);
    StoreReorderedByRender(WithId(older, olderId), WithId(newer, newerId), app.transactions);
  }

  /**
   * Drawing the list from a copy: the rows come from a newest-first
   * permutation of the store, and the store (not modified) keeps its order.
   */
  method RenderList(app: App) returns (view: ListView, shown: seq<Transaction>)
    ensures view.EmptyState? <==> app.transactions == []
    ensures NewestFirst(shown) && multiset(shown) == multiset(app.transactions)
    ensures view.Table? ==> view.rows == DisplayRows(shown)
  {
    view, shown := RenderCopy(app.transactions);
  }
}
