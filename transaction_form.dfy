/**
 * The manual entry form: five fields edited one at a time, a submit guard,
 * and the two callbacks a successful submit fires (add, then close).
 *
 * The amount is kept as the text typed; turning it into a number is the
 * browser's `parseFloat`, which is not modelled: its result is a parameter
 * of the submit. Today's date, the initial date, is a parameter too.
 */
module TransactionForm {
  import opened Types

  /** A callback the form fires, in the order fired. */
  datatype FormEffect = OnAdd(payload: TransactionInput) | OnClose

  /** The submit guard: description, amount text and category all non-empty. */
  predicate SubmitGuard(description: string, amountText: string, category: string)
    ensures SubmitGuard(description, amountText, category) <==>
      forall field :: field in [description, amountText, category] ==> |field| > 0
  {
    description != "" && amountText != "" && category != ""
  }

  /** The guard tests the amount's text, not its value: "0" passes wherever the other two fields do. */
  lemma GuardTestsAmountText(description: string, category: string)
    ensures SubmitGuard(description, "0", category) <==> description != "" && category != ""
    ensures !SubmitGuard(description, "", category)
  {
  }

  class Form {
    var description: string
    var amount: string
    var date: string
    var txType: TransactionType
    var category: string

    /** A fresh form: empty texts, today's date, and the expense tag selected. */
    constructor (today: string)
      ensures description == "" && amount == "" && category == ""
      ensures date == today
      ensures txType == EXPENSE
    {
      description := "";
      amount := "";
      date := today;
      txType := EXPENSE;
      category := "";
    }

    /** One of the three type buttons: selects its tag and touches nothing else. */
    method SetType(k: TransactionType)
      modifies this
      ensures txType == k
      ensures description == old(description) && amount == old(amount)
      ensures date == old(date) && category == old(category)
    {
      txType := k;
    }

    method SetDescription(text: string)
      modifies this
      ensures description == text
      ensures amount == old(amount) && date == old(date)
      ensures txType == old(txType) && category == old(category)
    {
      description := text;
    }

    method SetAmount(text: string)
      modifies this
      ensures amount == text
      ensures description == old(description) && date == old(date)
      ensures txType == old(txType) && category == old(category)
    {
      amount := text;
    }

    method SetDate(text: string)
      modifies this
      ensures date == text
      ensures description == old(description) && amount == old(amount)
      ensures txType == old(txType) && category == old(category)
    {
      date := text;
    }

    method SetCategory(text: string)
      modifies this
      ensures category == text
      ensures description == old(description) && amount == old(amount)
      ensures date == old(date) && txType == old(txType)
    {
      category := text;
    }

    /**
     * `handleSubmit`: when a required text is empty nothing is fired;
     * otherwise the entered record (without id) is added, then the form closes.
     * `parsedAmount` stands for the number the amount text parses to.
     */
    method HandleSubmit(parsedAmount: real) returns (effects: seq<FormEffect>)
      ensures !SubmitGuard(description, amount, category) ==> effects == []
      ensures SubmitGuard(description, amount, category) ==> |effects| == 2 && effects[1] == OnClose
      ensures SubmitGuard(description, amount, category) ==>
        effects[0] == OnAdd(TransactionInput(description, parsedAmount, date, txType, category))
      ensures forall i :: 0 <= i < |effects| ==> effects[i].OnAdd? ==> i == 0
    {
      if description == "" || amount == "" || category == "" {
        return [];
      }
      var payload := TransactionInput(description, parsedAmount, date, txType, category);
      effects := [OnAdd(payload)];
      effects := effects + [OnClose];
    }
  }
}
