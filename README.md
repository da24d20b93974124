# Finanças Pastel ledger — a Dafny model

This project models the logic of a small personal-finance web app. Users
record income, expense and tax transactions. A dashboard shows totals, a
category breakdown and a three-bar chart. The list can be exported to a
spreadsheet and is shown newest first. Records come from an entry form, or
in a batch from an import dialog that sends pasted bank-statement text to a
remote parser.

One Dafny module per source file:

- `Types` (`types.dfy`): the closed tag set `INCOME | EXPENSE | TAX` with its string values, and the six-field `Transaction`. Also `TransactionInput` (a record without its id) and `DashboardStats`.
- `Dashboard` (`dashboard.dfy`): the `stats` reduce as a loop method (`ComputeStats`). The category breakdown is a loop that fills a dictionary and then lists its entries (`PieData`). The bar series is `BarData`. Sum functions specify them, and lemmas relate those functions.
- `Ledger` (`ledger.dfy`): the `App` store as a class. It has the transaction list (a `seq` field), the active tab and the two dialog flags. Methods replace the list as `addTransaction`, `removeTransaction` and `handleSmartImport` do. The id filter is specified by `WithoutId`.
- `TransactionList` (`transaction_list.dfy`): the export sheet and its inverse `ReadRows`, the type labels, the amount sign, the empty state, and the in-place newest-first sort (an insertion sort over an `array`).
- `IsoDate` (`isodate.dfy`): the string order used to compare dates. For digit-shaped YYYY-MM-DD strings it is proved equal to the order by (year, month, day).
- `TransactionForm` (`transaction_form.dfy`): the entry form as a class with five fields, setters, and the submit guard that fires add and then close.
- `SmartImport` (`smart_import.dfy`): the import dialog as a class (text, loading, error, preview). Parsing is split into a start step and a finish step. The remote parser's answer is a `ParseOutcome` parameter.
- `Session` (`session.dfy`): the App's wiring of the two dialogs to the store, and the list rendering against the store.

Amounts are exact `real`s. Dates are strings ordered character by
character. The comparator subtracts `Date` timestamps, which is chronological
order for valid dates. For digit-shaped YYYY-MM-DD strings
`IsoDate.IsoDateOrder` proves that string order is the order by (year,
month, day); the shape check does not bound the month or the day, so the
agreement with timestamps holds for calendar-valid dates only.

`DashboardStats` (types.ts:16-21) names its fields `totalIncome`,
`totalExpense`, `totalTax` and `balance`. The dashboard's own accumulator
uses `income`, `expense`, `tax` and `balance`. The model uses the
`DashboardStats` record for the accumulator.

## Model

| member | source | states |
|---|---|---|
| `Types.TagName` | types.ts:2-4 | the string value is "INCOME", "EXPENSE" or "TAX" exactly for the tag of that name |
| `Types.ParseTag` | types.ts:1-5 | a string reads back as a tag only if it is that tag's string value |
| `Types.TagNameRoundTrip` | types.ts:2-4 | each tag's string value is its own name and reads back as that tag |
| `Types.TagNameInjective` | types.ts:1-5 | two tags have the same string value exactly when they are the same tag |
| `Types.WithId` | types.ts:7-14 | a record is an id plus the five input fields; stripping the id gives the input back |
| `Types.StripIdThenWithId` | types.ts:7-14 | every record is its stripped fields plus its id, so the six fields are all there is |
| `Dashboard.ComputeStats` | components/Dashboard.tsx:23-37 | the one-pass reduce returns, per tag, the sum of that tag's amounts, plus the running balance; balance = income − expense − tax, and all four are 0 on an empty list |
| `Dashboard.TypeTotalSnoc` | components/Dashboard.tsx:25-34 | folding one more record adds its amount to the bucket of its own tag and to no other |
| `Dashboard.BalanceSnoc` | components/Dashboard.tsx:25-33 | folding one more record moves the balance by +amount for INCOME and −amount for EXPENSE and TAX |
| `Dashboard.BalanceIdentity` | components/Dashboard.tsx:24-36 | for every list, the running balance equals income − expense − tax |
| `Dashboard.BucketsPartition` | components/Dashboard.tsx:25-34 | each record lands in exactly one bucket, so the three buckets sum to the total of all amounts |
| `Dashboard.TypeTotalAppend` | components/Dashboard.tsx:24-36 | the totals of two concatenated lists add up, so a batch import adds its own totals to the dashboard |
| `Dashboard.PieData` | components/Dashboard.tsx:39-48 | the breakdown has one entry per category of an EXPENSE/TAX record, no name twice, and each value is the sum of the EXPENSE/TAX amounts with exactly that category |
| `Dashboard.AbsentCategoryTotal` | components/Dashboard.tsx:42-45 | a category that no EXPENSE/TAX record carries totals zero |
| `Dashboard.IncomeOnlyBreakdown` | components/Dashboard.tsx:42 | a list of only INCOME records yields an empty breakdown |
| `Dashboard.BreakdownTotal` | components/Dashboard.tsx:41-47 | the breakdown values sum to expense + tax |
| `Dashboard.BarData` | components/Dashboard.tsx:50-54 | three bars, carrying in order the income, expense and tax totals; when the stats satisfy the balance identity, first minus the other two is the balance |
| `Dashboard.BarDataOfList` | components/Dashboard.tsx:50-54 | the three bars, in order, are Receitas, Despesas and Impostos with the list's income, expense and tax totals; the first minus the other two is the balance |
| `Ledger.WithoutId` | App.tsx:40-42 | the filtered list holds exactly the records of the list whose id differs, and is no longer than it |
| `Ledger.WithoutIdAppend` | App.tsx:41 | filtering a concatenation filters each part, so kept records stay in their original order |
| `Ledger.WithoutIdSingle` | App.tsx:41 | a single record is kept exactly when its id differs |
| `Ledger.WithoutAbsentId` | App.tsx:41 | removing an id no record carries leaves the list unchanged |
| `Ledger.WithoutIdRemovesAll` | App.tsx:41 | after removal no record carries the id |
| `Ledger.WithoutIdIdempotent` | App.tsx:41 | removing the same id twice equals removing it once |
| `Ledger.AddThenRemove` | App.tsx:32-42 | adding a record under an id not yet present and then removing that id restores the earlier list |
| `Ledger.WithoutIdKeepsUnique` | App.tsx:40-42 | removal keeps ids unique |
| `Ledger.AddFreshKeepsUnique` | App.tsx:32-38 | appending a record with a new id keeps ids unique |
| `Ledger.ImportKeepsUnique` | App.tsx:44-45 | appending a batch keeps ids unique when the batch's ids are unique and new |
| `Ledger.Load` | App.tsx:16-25 | a missing or unparsable snapshot gives the empty list; a parsed one gives its list |
| `Ledger.App.constructor` | App.tsx:10-25 | startup shows the dashboard tab with no dialog open, and the list is the loaded snapshot or empty |
| `Ledger.App.SelectTab` | App.tsx:86-92 | a tab button sets the active tab and changes nothing else |
| `Ledger.App.SetShowForm` | App.tsx:12 | the form flag is set and nothing else changes |
| `Ledger.App.SetShowImport` | App.tsx:13 | the import flag is set and nothing else changes |
| `Ledger.App.AddTransaction` | App.tsx:32-38 | exactly one record, with the input's fields and the new id, is appended at the end; earlier records and the tab are unchanged |
| `Ledger.App.RemoveTransaction` | App.tsx:40-42 | the list becomes the id-filtered list; no record with the id remains; an absent id changes nothing |
| `Ledger.App.HandleSmartImport` | App.tsx:44-47 | the imported list is appended unchanged, in its order, after the existing list, and the list tab becomes active |
| `IsoDate.LexLeTotal` | components/TransactionList.tsx:67 | any two dates are comparable under the string order |
| `IsoDate.LexLeTransitive` | components/TransactionList.tsx:67 | the string order is transitive |
| `IsoDate.LexLeAntisymmetric` | components/TransactionList.tsx:67 | two strings each no greater than the other are equal |
| `IsoDate.LexLeDigits` | types.ts:11 | for digit strings of one length, string order is numeric order |
| `IsoDate.IsoDateOrder` | types.ts:11 | for digit-shaped YYYY-MM-DD strings, string order is the order by year, then month, then day |
| `TransactionList.TypeLabel` | components/TransactionList.tsx:19 | the label is Receita exactly for INCOME, Despesa exactly for EXPENSE and Imposto exactly for TAX |
| `TransactionList.LabelType` | components/TransactionList.tsx:19 | a label reads back as a tag only if it is that tag's label |
| `TransactionList.TypeLabelRoundTrip` | components/TransactionList.tsx:19 | INCOME, EXPENSE and TAX are labelled Receita, Despesa and Imposto, and each label reads back as its own tag |
| `TransactionList.SignPrefix` | components/TransactionList.tsx:90 | the sign shown is always + or -, and + exactly for INCOME records |
| `TransactionList.SignPrefixMatchesBalance` | components/TransactionList.tsx:90 | for a positive amount, '+' is shown exactly for records that raise the balance (INCOME) and '-' exactly for those that lower it |
| `TransactionList.ExportHeader` | components/TransactionList.tsx:14-21 | the header is five text cells, one per exported column |
| `TransactionList.ExportRow` | components/TransactionList.tsx:15-21 | a record's row is four text cells then its amount as a number, and its type cell reads back as the record's own tag |
| `TransactionList.ExportSheet` | components/TransactionList.tsx:14-21 | the sheet is the header row followed by one row per transaction |
| `TransactionList.ExportRowRoundTrip` | components/TransactionList.tsx:15-21 | row i + 1 holds transaction i's date, description, category, type label and amount, and reads back as all its fields except the id |
| `TransactionList.HeaderIsNotARow` | components/TransactionList.tsx:14 | the header row (Data, Descrição, Categoria, Tipo, Valor) does not read as a record |
| `TransactionList.ExportRoundTrip` | components/TransactionList.tsx:14-21 | the data rows read back as the whole list, in list order, without ids |
| `TransactionList.DisplayRowOf` | components/TransactionList.tsx:68-101 | a drawn row carries the record's amount, shows + exactly for INCOME, and its delete action carries the record's id |
| `TransactionList.DeleteReportsRowId` | components/TransactionList.tsx:94 | a row's delete action reports exactly that record's id, and removing that id drops the record |
| `TransactionList.NewestFirstIsChronological` | components/TransactionList.tsx:67 | with digit-shaped YYYY-MM-DD dates, a newest-first list has no record earlier by (year, month, day) than one after it |
| `TransactionList.SortNewestFirst` | components/TransactionList.tsx:67 | the array is sorted in place into non-increasing date order and holds the same records |
| `TransactionList.InsertOne` | components/TransactionList.tsx:67 | one insertion step extends the sorted prefix by one element, keeps the records and leaves the rest of the array alone |
| `TransactionList.Render` | components/TransactionList.tsx:30-102 | an empty list shows the empty state; otherwise the array is sorted in place and drawn as one row per record |
| `TransactionList.RenderCopy` | components/TransactionList.tsx:30-102 | the same view, drawn from a newest-first permutation of a copy, leaving the list as it was |
| `TransactionList.LexLeFirstDifference` | components/TransactionList.tsx:67 | a date greater at its first differing character is not below the other |
| `TransactionForm.SubmitGuard` | components/TransactionForm.tsx:19 | a submit passes the guard exactly when every required field (description, amount text, category) is non-empty |
| `TransactionForm.GuardTestsAmountText` | components/TransactionForm.tsx:19 | the guard tests the amount text for emptiness, not its value: "0" passes whenever description and category are non-empty |
| `TransactionForm.Form.constructor` | components/TransactionForm.tsx:11-15 | a new form has empty texts, today's date, and EXPENSE selected |
| `TransactionForm.Form.SetType` | components/TransactionForm.tsx:47-69 | each type button selects its own tag and changes no other field |
| `TransactionForm.Form.SetDescription` | components/TransactionForm.tsx:86 | only the description changes |
| `TransactionForm.Form.SetAmount` | components/TransactionForm.tsx:100 | only the amount text changes |
| `TransactionForm.Form.SetDate` | components/TransactionForm.tsx:111 | only the date changes |
| `TransactionForm.Form.SetCategory` | components/TransactionForm.tsx:123 | only the category changes |
| `TransactionForm.Form.HandleSubmit` | components/TransactionForm.tsx:17-29 | with an empty description, amount text or category nothing fires; otherwise add fires once with the entered fields (no id), then close fires |
| `SmartImport.Trim` | components/SmartImport.tsx:18 | the trimmed text is empty exactly when the text is all white space, and otherwise starts and ends with non-white-space |
| `SmartImport.ErrorText` | components/SmartImport.tsx:25 | the error shown is the failure's message when it is non-empty, and 'Erro ao processar' otherwise |
| `SmartImport.ImportDialog.constructor` | components/SmartImport.tsx:12-15 | the dialog starts with empty text, not loading, no error and no preview |
| `SmartImport.ImportDialog.Screen` | components/SmartImport.tsx:60 | the preview table is shown exactly when there is a preview |
| `SmartImport.ImportDialog.CanParse` | components/SmartImport.tsx:124 | parsing is enabled exactly when not loading and the text is not all white space |
| `SmartImport.ImportDialog.SetText` | components/SmartImport.tsx:67 | typing changes only the text |
| `SmartImport.ImportDialog.StartParse` | components/SmartImport.tsx:17-20 | blank text changes nothing and calls no parser; otherwise loading starts and any previous error is cleared |
| `SmartImport.ImportDialog.FinishParse` | components/SmartImport.tsx:21-28 | on success the preview becomes the returned list; on failure the error is set and the preview kept; loading ends either way |
| `SmartImport.ImportDialog.HandleParse` | components/SmartImport.tsx:17-29 | run to completion: a parser call happens exactly for non-blank text, after which loading is false; success shows the preview with no error |
| `SmartImport.ImportDialog.HandleConfirm` | components/SmartImport.tsx:31-36 | with no preview nothing fires; with one (even an empty list), exactly that list is imported, then close fires |
| `SmartImport.ImportDialog.Back` | components/SmartImport.tsx:133 | the preview is cleared and the text entry shown again; nothing else changes |
| `Session.SubmitForm` | App.tsx:131-135 | a rejected submit leaves the store as it was; an accepted one appends the entered record under the new id and hides the form |
| `Session.ConfirmImport` | App.tsx:138-142 | confirming with no preview changes nothing; with a preview, the preview is appended to the store, the list tab is shown and the dialog hidden |
| `Session.RenderListInPlace` | components/TransactionList.tsx:67 | drawing the list sorts the store's own array, so the store ends as a newest-first permutation of itself |
| `Session.StoreReorderedByRender` | components/TransactionList.tsx:67 | two records added oldest first come out of the store in the reverse of their insertion order once the list is drawn |
| `Session.AddTwoThenRender` | components/TransactionList.tsx:67 | a fresh store given a 2024-01-01 record and then a 2024-02-01 record holds them in the reverse order once the list is drawn in place |
| `Session.RenderList` | components/TransactionList.tsx:67 | drawing from a sorted copy shows the same newest-first rows without touching the store |

## Left out

- Persistence: reading and writing browser local storage and the JSON round trip are not modelled. The startup snapshot is an `Option` (App.tsx:16-25), and the save-on-change effect (App.tsx:28-30) is left out.
- Random ids: `Math.random` (App.tsx:35) becomes the `newId` parameter. Nothing makes it fresh, so `Ledger.App.AddTransaction` does not require freshness; the round-trip and uniqueness lemmas assume it.
- services/geminiService.ts is not part of this model. The remote parser is reduced to its answer, a list or a failure with an optional message (`SmartImport.ParseOutcome`).
- Floating point: amounts are exact reals, so rounding, NaN and `parseFloat` are not modelled. `TransactionForm.Form.HandleSubmit` takes the parsed amount as a parameter. `toFixed(2)` formatting is not modelled.
- Dates: `new Date(...).getTime()`, `toLocaleDateString('pt-BR')` and the default date "today" are not modelled. Today's date is a constructor parameter. The sort compares date strings character by character, which matches the order by (year, month, day) for YYYY-MM-DD-shaped strings. Shape-valid but calendar-invalid dates such as "2023-13-01" or "2023-02-30" (NaN or rolled over by `Date` in the app) and other invalid dates are out of scope.
- `Dashboard.PieData`: categories named like members of `Object.prototype` are not modelled. The app's dictionary is a plain `{}` (components/Dashboard.tsx:40), so a category "__proto__" reads back the prototype object: the string-valued assignment is ignored and the category never appears in the breakdown while its amount still counts in the expense total. Categories "constructor", "toString", "valueOf", "hasOwnProperty" and the like start from an inherited function and end with a string value such as "function Object() { [native code] }10". The model treats the dictionary as a map from every name to a number, so for such names its breakdown and `Dashboard.BreakdownTotal` differ from the app.
- `Dashboard.PieData`: does not promise an entry order. `Object.entries` lists integer-like keys first and the rest in insertion order; the model lists the dictionary in an unspecified order.
- `TransactionList.SortNewestFirst`: does not state stability. The app's sort keeps equal-date records in their prior order; the model promises only non-increasing dates and a permutation.
- The workbook library calls (components/TransactionList.tsx:24-27), the charts, markup, colours and icons are not modelled. The export is modelled up to the rows handed to the workbook.
- The browser's `required` attributes on the form inputs are not modelled. Only the submit handler's own guard is.
- Async timing: a parse is a start step plus a finish step. A dialog closed while a parse is in flight is not modelled.

## Findings

| source | as written | input that shows it | evidently intended | confidence | as-written member | corrected member |
|---|---|---|---|---|---|---|
| components/TransactionList.tsx:67 | `transactions.sort(...)` sorts, in place, the array the App passes in, which is the App's own state. Every draw of the list reorders the stored list newest first, behind the store's back | store [x dated 2024-01-01, y dated 2024-02-01], added in that order; after the list is drawn the store holds [y, x] | sort a copy for display, leaving the store in insertion order | medium, not executed | `Session.StoreReorderedByRender` | `Session.RenderList` |

In the model, `Session.RenderListInPlace` draws the list the way the code
does, and `Session.AddTwoThenRender` runs the counterexample through it: a
fresh store, two adds, one draw, and the store comes out reversed. `Session.RenderList` draws it through `TransactionList.RenderCopy`,
which sorts a fresh array and leaves the store alone.
