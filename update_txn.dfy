/** The edit page of a transaction: which statuses may be edited, the form's
    starting values, the checks `handleSave` makes before it sends the update,
    the cumulative amount it sends, the remaining balance it shows for an
    installment payment, and its payment-method names. */
module UpdateTxn {
  import opened Base

  /** The transaction as the transaction service returns it; `paymentAmount`
      is `payment?.amount` of that record. */
  datatype TxnRecord = TxnRecord(
    id: string,
    customerId: Option<string>,
    paymentMethod: Option<string>,
    status: string,
    totalAmount: Option<int>,
    paymentAmount: Option<int>)

  /** The payment record fetched for the transaction. */
  datatype Payment = Payment(status: Option<string>, amount: Option<int>)

  /** The `updateData` object of the page. */
  datatype UpdateForm = UpdateForm(customerId: string, paymentMethod: string, amount: int)

  /** The update sent for transaction `transactionId`. `amount` is `None` when
      the payment has no amount: the sum is then `NaN`. */
  datatype UpdateRequest = UpdateRequest(
    transactionId: string,
    customerId: string,
    paymentMethod: string,
    amount: Option<int>)

  const MSG_NEGATIVE := "Jumlah pembayaran tidak boleh negatif"
  const MSG_EXCEEDS_TOTAL := "Jumlah pembayaran tidak boleh melebihi total transaksi"
  const MSG_UPDATED := "Transaksi berhasil diperbarui"
  const MSG_UPDATE_FAILED := "Terjadi kesalahan saat memperbarui transaksi"
  /** The message of the `TypeError` thrown by `payment.amount` while `payment` is `null`. */
  const MSG_NULL_PAYMENT := "Cannot read properties of null (reading 'amount')"
  const UNKNOWN_METHOD := "Metode Tidak Diketahui"

  /** `canUpdate`: only a pending or in-progress transaction can be edited. */
  function CanUpdate(status: string): (r: bool)
    ensures r <==> status == PENDING || status == IN_PROGRESS
    ensures !r ==> status != PENDING && status != IN_PROGRESS
  {
    status == PENDING || status == IN_PROGRESS
  }

  /** The form values set once the transaction is loaded. */
  function InitialForm(t: TxnRecord): (f: UpdateForm)
    ensures f.customerId == (if Truthy(t.customerId) then t.customerId.value else "")
    ensures f.paymentMethod == (if Truthy(t.paymentMethod) then t.paymentMethod.value else "CASH")
    ensures f.amount == (if t.paymentAmount.Some? then t.paymentAmount.value else 0)
  {
    UpdateForm(OrElse(t.customerId, ""), OrElse(t.paymentMethod, "CASH"), NumOr(t.paymentAmount, 0))
  }

  /** The characters `String.prototype.trim` removes: white space and line terminators. */
  predicate IsTrimmed(c: char) {
    || c == ' ' || c == '\t' || c == '\n' || c == '\r' || c == '\U{000B}' || c == '\U{000C}'
    || c == '\U{00A0}' || c == '\U{1680}' || ('\U{2000}' <= c <= '\U{200A}')
    || c == '\U{2028}' || c == '\U{2029}' || c == '\U{202F}' || c == '\U{205F}'
    || c == '\U{3000}' || c == '\U{FEFF}'
  }

  /** `!s.trim()`: nothing is left after trimming. */
  predicate Blank(s: string) {
    forall i :: 0 <= i < |s| ==> IsTrimmed(s[i])
  }

  /** The payment is an installment (`payment?.status === 'CICILAN'`). */
  predicate Installment(payment: Option<Payment>) {
    payment.Some? && payment.value.status == Some(CICILAN)
  }

  /** How far `handleSave` gets before it tries to send. */
  datatype SaveStep = Skip | Refuse(message: string) | Proceed

  /** The checks at the start of `handleSave`, in its order: a blank customer
      ends it silently; for an installment the entered amount must lie in
      0..total; any other payment status is not checked at all. */
  function SaveCheck(form: UpdateForm, payment: Option<Payment>, t: TxnRecord): (r: SaveStep)
    ensures r == Skip <==> Blank(form.customerId)
    ensures r.Refuse? ==> Installment(payment)
    ensures r == Refuse(MSG_NEGATIVE) <==> !Blank(form.customerId) && Installment(payment) && form.amount < 0
    ensures r == Refuse(MSG_EXCEEDS_TOTAL) <==>
      !Blank(form.customerId) && Installment(payment) && 0 <= form.amount && form.amount > NumOr(t.totalAmount, 0)
    ensures r == Proceed <==>
      !Blank(form.customerId) && (Installment(payment) ==> 0 <= form.amount <= NumOr(t.totalAmount, 0))
  {
    if Blank(form.customerId) then Skip
    else if Installment(payment) && form.amount < 0 then Refuse(MSG_NEGATIVE)
    else if Installment(payment) && form.amount > NumOr(t.totalAmount, 0) then Refuse(MSG_EXCEEDS_TOTAL)
    else Proceed
  }

  /** `updateData.amount + payment.amount`: the amount paid so far plus the
      amount entered now. */
  function CumulativeAmount(entered: int, payment: Payment): (r: Option<int>)
    ensures r.Some? <==> payment.amount.Some?
    ensures r.Some? ==> r.value - entered == payment.amount.value
  {
    if payment.amount.Some? then Some(entered + payment.amount.value) else None
  }

  /** The remaining balance shown for an installment, never negative. */
  function RemainingBalance(total: Option<int>, paid: Option<int>, entered: int): (r: int)
    ensures r >= 0
    ensures r >= NumOr(total, 0) - NumOr(paid, 0) - entered
    ensures r == 0 || r == NumOr(total, 0) - NumOr(paid, 0) - entered
  {
    Max(0, NumOr(total, 0) - NumOr(paid, 0) - entered)
  }

  /** The balance shown before saving is what stays unpaid once the cumulative
      amount of the save is recorded. */
  lemma RemainingAfterSave(t: TxnRecord, payment: Payment, entered: int)
    requires payment.amount.Some?
    ensures var sent := CumulativeAmount(entered, payment);
      RemainingBalance(t.totalAmount, payment.amount, entered) == Max(0, NumOr(t.totalAmount, 0) - sent.value)
  {
  }

  /** The installment check compares the entered amount with the total, not
      with what is left to pay: with 60 of 100 paid, entering 50 passes the
      check and the cumulative amount sent is 110, above the total. */
  lemma InstallmentMayExceedTotal()
    ensures var t := TxnRecord("t", Some("c"), Some("CASH"), IN_PROGRESS, Some(100), Some(60));
      var payment := Payment(Some(CICILAN), Some(60));
      var form := UpdateForm("c", "CASH", 50);
      && SaveCheck(form, Some(payment), t) == Proceed
      && CumulativeAmount(form.amount, payment) == Some(110)
      && RemainingBalance(t.totalAmount, payment.amount, form.amount) == 0
  {
    var form := UpdateForm("c", "CASH", 50);
    assert !Blank(form.customerId) by { assert !IsTrimmed(form.customerId[0]); }
  }

  /** The form starts with the amount already paid, and saving adds the amount
      already paid to it: saving an untouched form sends that amount twice. */
  lemma UntouchedFormCountsPaidTwice(t: TxnRecord, payment: Payment, paid: int)
    requires t.paymentAmount == Some(paid) && payment.amount == Some(paid)
    ensures CumulativeAmount(InitialForm(t).amount, payment) == Some(2 * paid)
  {
  }

  /** `getReadablePaymentMethod`. */
  function ReadablePaymentMethod(code: string): (r: string)
    ensures r != ""
    ensures code !in {"CASH", "CREDIT_CARD", "DEBIT_CARD", "BANK_TRANSFER", "OVO", "GOPAY", "DANA", "OTHER"}
      <==> r == UNKNOWN_METHOD
  {
    match code
    case "CASH" => "Tunai"
    case "CREDIT_CARD" => "Kartu Kredit"
    case "DEBIT_CARD" => "Kartu Debit"
    case "BANK_TRANSFER" => "Transfer Bank"
    case "OVO" => "OVO"
    case "GOPAY" => "GoPay"
    case "DANA" => "DANA"
    case "OTHER" => "Lainnya"
    case _ => UNKNOWN_METHOD
  }

  /** The edit page once the transaction and its payment (`None`: the payment
      request failed) are loaded. */
  class UpdatePage {
    const transaction: TxnRecord
    const payment: Option<Payment>
    var updateData: UpdateForm
    var saving: bool
    var successMessage: string
    var errorMessage: string

    constructor (t: TxnRecord, p: Option<Payment>)
      ensures transaction == t && payment == p
      ensures updateData == InitialForm(t)
      ensures !saving && successMessage == "" && errorMessage == ""
    {
      transaction := t;
      payment := p;
      updateData := InitialForm(t);
      saving := false;
      successMessage := "";
      errorMessage := "";
    }

    /** The amount input, shown only for an installment, with the parsed number. */
    method SetAmount(amount: int)
      modifies this
      ensures updateData == old(updateData).(amount := amount)
      ensures saving == old(saving) && successMessage == old(successMessage) && errorMessage == old(errorMessage)
    {
      updateData := updateData.(amount := amount);
    }

    /** `handleSave`. `reply` is what the service answers if the update is
        sent; `request` is the update sent, `None` when none is. */
    method Save(reply: Reply) returns (request: Option<UpdateRequest>)
      modifies this
      ensures updateData == old(updateData)
      ensures var step := SaveCheck(updateData, payment, transaction);
        && (request.Some? <==> step == Proceed && payment.Some?)
        && (step == Skip ==>
              errorMessage == old(errorMessage) && successMessage == old(successMessage) && saving == old(saving))
        && (step.Refuse? ==>
              errorMessage == step.message && successMessage == old(successMessage) && saving == old(saving))
        && (step == Proceed ==> !saving)
        && (step == Proceed && payment.None? ==>
              errorMessage == MSG_NULL_PAYMENT && successMessage == old(successMessage))
      ensures request.Some? ==>
        && request.value == UpdateRequest(transaction.id, updateData.customerId, updateData.paymentMethod,
                                          CumulativeAmount(updateData.amount, payment.value))
        && (reply.Accepted? ==> successMessage == MSG_UPDATED && errorMessage == "")
        && (reply.Rejected? ==>
              && errorMessage == (if reply.message != "" then reply.message else MSG_UPDATE_FAILED)
              && successMessage == old(successMessage))
    {
      if Blank(updateData.customerId) {
        return None;
      }
      if Installment(payment) {
        var totalAmount := NumOr(transaction.totalAmount, 0);
        if updateData.amount < 0 {
          errorMessage := MSG_NEGATIVE;
          return None;
        }
        if updateData.amount > totalAmount {
          errorMessage := MSG_EXCEEDS_TOTAL;
          return None;
        }
      }
      saving := true;
      errorMessage := "";
      if payment.None? {
        errorMessage := MSG_NULL_PAYMENT;
        request := None;
      } else {
        var dto := UpdateRequest(transaction.id, updateData.customerId, updateData.paymentMethod,
                                 CumulativeAmount(updateData.amount, payment.value));
        request := Some(dto);
        match reply {
          case Accepted =>
            successMessage := MSG_UPDATED;
          case Rejected(message) =>
            errorMessage := if message != "" then message else MSG_UPDATE_FAILED;
        }
      }
      saving := false;
    }
  }
}
