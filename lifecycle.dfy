/** How the three transaction pages agree, and where they do not: the actions
    the history table offers against the guards of the detail and edit pages,
    the three payment-method label tables, and the amount still to pay as the
    detail page and the edit page show it. */
module Lifecycle {
  import opened Base
  import History
  import UpdateTxn
  import Detail

  /** The history table offers the edit button for exactly the statuses the
      edit page accepts. */
  lemma EditAgrees(status: string)
    ensures History.RowActions(status).edit <==> UpdateTxn.CanUpdate(status)
  {
  }

  /** A cancel button of the history table leads to a detail page that allows
      the cancel; the detail page also allows it for a status the table does
      not know. */
  lemma CancelAgrees(status: string)
    ensures History.RowActions(status).cancel ==> Detail.CanCancel(Some(status))
    ensures Detail.CanCancel(Some("REFUNDED")) && !History.RowActions("REFUNDED").cancel
  {
  }

  /** Every status the detail page may delete has a delete button in the
      table, but the table also offers delete for an in-progress or a
      completed transaction, which the detail page refuses. */
  lemma DeleteDisagrees(status: string)
    ensures Detail.CanDelete(Some(status)) ==> History.RowActions(status).delete
    ensures History.RowActions(IN_PROGRESS).delete && !Detail.CanDelete(Some(IN_PROGRESS))
    ensures History.RowActions(COMPLETED).delete && !Detail.CanDelete(Some(COMPLETED))
  {
  }

  /** The edit page names the eight codes of the history table alike, and
      names every other code "Metode Tidak Diketahui" where the table shows
      the code itself. */
  lemma EditNamesAgreeWithHistory(code: string)
    ensures code in History.METHOD_LABELS ==> UpdateTxn.ReadablePaymentMethod(code) == History.PaymentMethodLabel(code)
    ensures code !in History.METHOD_LABELS ==>
      UpdateTxn.ReadablePaymentMethod(code) == UpdateTxn.UNKNOWN_METHOD && History.PaymentMethodLabel(code) == code
  {
    History.KnownMethods();
  }

  /** The detail page's table agrees with the history table on the three card
      and cash codes; it knows bank transfers as `TRANSFER` where the history
      table knows them as `BANK_TRANSFER`, and it alone knows `INSTALLMENT`. */
  lemma DetailNamesAgainstHistory(code: string)
    ensures code in {"CASH", "CREDIT_CARD", "DEBIT_CARD"} ==>
      Detail.PaymentMethodLabel(code) == History.PaymentMethodLabel(code)
    ensures Detail.PaymentMethodLabel("TRANSFER") == "Transfer Bank" && History.PaymentMethodLabel("TRANSFER") == "TRANSFER"
    ensures Detail.PaymentMethodLabel("BANK_TRANSFER") == "BANK_TRANSFER"
      && History.PaymentMethodLabel("BANK_TRANSFER") == "Transfer Bank"
    ensures Detail.PaymentMethodLabel("INSTALLMENT") == "Cicilan" && History.PaymentMethodLabel("INSTALLMENT") == "INSTALLMENT"
  {
    assert "BANK_TRANSFER" !in Detail.METHOD_LABELS;
    assert "INSTALLMENT" !in History.METHOD_LABELS by { History.KnownMethods(); }
    assert "TRANSFER" !in History.METHOD_LABELS by { History.KnownMethods(); }
  }

  /** For an in-progress transaction the edit page's remaining balance, with
      the amount field at 0, is the detail page's unpaid amount clamped at 0;
      without a total the detail page shows `NaN` where the edit page's
      `|| 0` shows 0. */
  lemma BalanceIsClampedUnpaid(totalAmount: int, paid: Option<int>)
    ensures var unpaid := Detail.Unpaid(IN_PROGRESS, Detail.Given(totalAmount), paid);
      UpdateTxn.RemainingBalance(Some(totalAmount), paid, 0) == Max(0, unpaid.amount.value)
    ensures Detail.Unpaid(IN_PROGRESS, Detail.Undefined, paid) == Detail.Shown(None)
    ensures paid.None? || paid.value >= 0 ==> UpdateTxn.RemainingBalance(None, paid, 0) == 0
  {
  }
}
