/** The detail page of a transaction: which statuses may be cancelled or
    deleted, the summary counts and amounts, the status badge and the
    payment-method labels. */
module Detail {
  import opened Base

  /** A number field as the backend may send it: a number, `null`, or absent
      (`undefined`). Arithmetic counts `null` as 0 and turns `undefined` into
      `NaN`, while `|| 0` maps both to 0. */
  datatype NumberField = Given(n: int) | Null | Undefined {
    function OrZero(): int {
      if Given? then n else 0
    }
  }

  /** An item of `transaction.items`; a missing price is `None`. */
  datatype Item = Item(price: Option<int>, quantity: NumberField)

  /** `canCancel`; `None` is a transaction not loaded (`null`). */
  function CanCancel(status: Option<string>): (r: bool)
    ensures r <==> status.Some? && status.value != CANCELLED && status.value != COMPLETED
  {
    status.Some? && status.value != CANCELLED && status.value != COMPLETED
  }

  /** `canDelete`; `None` is a transaction not loaded (`null`). */
  function CanDelete(status: Option<string>): (r: bool)
    ensures r <==> status.Some? && (status.value == CANCELLED || status.value == PENDING)
  {
    status.Some? && (status.value == CANCELLED || status.value == PENDING)
  }

  /** The permissions of the four statuses; a pending transaction is the only
      one that may be both cancelled and deleted, a completed one neither. */
  lemma Permissions()
    ensures CanCancel(Some(PENDING)) && CanDelete(Some(PENDING))
    ensures CanCancel(Some(IN_PROGRESS)) && !CanDelete(Some(IN_PROGRESS))
    ensures !CanCancel(Some(CANCELLED)) && CanDelete(Some(CANCELLED))
    ensures !CanCancel(Some(COMPLETED)) && !CanDelete(Some(COMPLETED))
    ensures forall s :: CanCancel(Some(s)) && CanDelete(Some(s)) ==> s == PENDING
    ensures !CanCancel(None) && !CanDelete(None)
  {
  }

  /** The running sum of `reduce((sum, item) => sum + item.quantity, 0)`;
      `None` is `NaN`, what the sum becomes from the first item whose quantity
      is `undefined`; a `null` quantity adds 0. */
  function QuantityFold(items: seq<Item>): (r: Option<int>)
    ensures r.None? <==> exists i :: 0 <= i < |items| && items[i].quantity.Undefined?
  {
    if items == [] then Some(0)
    else
      var prefix := QuantityFold(items[..|items| - 1]);
      var last := items[|items| - 1];
      if prefix.None? || last.quantity.Undefined? then None
      else if last.quantity.Null? then prefix
      else Some(prefix.value + last.quantity.n)
  }

  /** No item's quantity is `undefined`. */
  predicate NoneUndefined(items: seq<Item>) {
    forall i :: 0 <= i < |items| ==> !items[i].quantity.Undefined?
  }

  /** The sum of the quantities, with `null` and `undefined` counted as 0. */
  function QuantitySum(items: seq<Item>): int {
    if items == [] then 0 else items[0].quantity.OrZero() + QuantitySum(items[1..])
  }

  lemma {:induction false} QuantitySumAppend(items: seq<Item>, x: Item)
    ensures QuantitySum(items + [x]) == QuantitySum(items) + x.quantity.OrZero()
  {
    if items != [] {
      assert (items + [x])[1..] == items[1..] + [x];
      QuantitySumAppend(items[1..], x);
    }
  }

  /** The fold yields the sum when no quantity is `undefined`, and `NaN` otherwise. */
  lemma {:induction false} QuantityFoldIsSum(items: seq<Item>)
    ensures QuantityFold(items) == if NoneUndefined(items) then Some(QuantitySum(items)) else None
  {
    if items != [] {
      var prefix, last := items[..|items| - 1], items[|items| - 1];
      QuantityFoldIsSum(prefix);
      assert items == prefix + [last];
      QuantitySumAppend(prefix, last);
      if NoneUndefined(prefix) && !last.quantity.Undefined? {
        forall i | 0 <= i < |items| ensures !items[i].quantity.Undefined? {
          if i < |prefix| {
            assert items[i] == prefix[i];
          }
        }
      }
      if NoneUndefined(items) {
        forall i | 0 <= i < |prefix| ensures !prefix[i].quantity.Undefined? {
          assert prefix[i] == items[i];
        }
      }
    }
  }

  /** "Jumlah Item": the fold `|| 0`, 0 also without an item list. */
  function ItemCount(items: Option<seq<Item>>): (r: int)
    ensures items.None? ==> r == 0
    ensures items.Some? && NoneUndefined(items.value) ==> r == QuantitySum(items.value)
    ensures items.Some? && !NoneUndefined(items.value) ==> r == 0
  {
    if items.None? then 0
    else
      QuantityFoldIsSum(items.value);
      NumOr(QuantityFold(items.value), 0)
  }

  /** A `null` quantity adds nothing to the count, an `undefined` one blanks it to 0. */
  lemma NullAndUndefinedQuantities()
    ensures ItemCount(Some([Item(Some(5), Given(2)), Item(Some(7), Null)])) == 2
    ensures ItemCount(Some([Item(Some(5), Given(2)), Item(Some(7), Undefined)])) == 0
  {
    assert QuantityFold([Item(Some(5), Given(2))]) == Some(2);
    assert QuantityFold([Item(Some(5), Given(2)), Item(Some(7), Null)]) == Some(2);
  }

  /** "Jenis Produk": `items?.length || 0`. */
  function KindCount(items: Option<seq<Item>>): (r: nat)
    ensures items.Some? ==> r == |items.value|
    ensures items.None? ==> r == 0
  {
    if items.Some? then |items.value| else 0
  }

  /** The "Belum Dibayar" line: not shown, or shown with an amount that is
      `None` when it is `NaN`. */
  datatype UnpaidLine = Hidden | Shown(amount: Option<int>)

  /** "Belum Dibayar": shown only for an in-progress transaction, the total
      less what the payment covers (`paid` is `payment?.amount`), not clamped
      at 0; the total has no `|| 0`, so a missing one shows `NaN` and a `null`
      one counts as 0. */
  function Unpaid(status: string, totalAmount: NumberField, paid: Option<int>): (r: UnpaidLine)
    ensures r.Shown? <==> status == IN_PROGRESS
    ensures r.Shown? ==> (r.amount.None? <==> totalAmount.Undefined?)
    ensures r.Shown? && r.amount.Some? && paid.Some? ==> r.amount.value == totalAmount.OrZero() - paid.value
    ensures r.Shown? && r.amount.Some? && paid.None? ==> r.amount.value == totalAmount.OrZero()
  {
    if status != IN_PROGRESS then Hidden
    else if totalAmount.Undefined? then Shown(None)
    else Shown(Some(totalAmount.OrZero() - NumOr(paid, 0)))
  }

  /** An over-paid payment shows a negative amount still to pay, and a
      transaction without a total shows `NaN`. */
  lemma UnpaidMayBeNegative()
    ensures Unpaid(IN_PROGRESS, Given(100), Some(150)) == Shown(Some(-50))
    ensures Unpaid(IN_PROGRESS, Undefined, Some(150)) == Shown(None)
  {
  }

  /** A line's subtotal: `(price || 0) * (quantity || 0)`. */
  function LineSubtotal(item: Item): (r: int)
    ensures item.price.None? || !item.quantity.Given? ==> r == 0
    ensures item.price.Some? && item.quantity.Given? ==> r == item.price.value * item.quantity.n
  {
    NumOr(item.price, 0) * item.quantity.OrZero()
  }

  /** The status badge: the status whose configuration it uses, and its text. */
  datatype Badge = Badge(config: string, text: string)

  /** `statusConfig[status] || statusConfig.PENDING`. */
  function StatusBadge(status: string): (r: Badge)
    ensures r.config in {PENDING, IN_PROGRESS, COMPLETED, CANCELLED}
    ensures status in {PENDING, IN_PROGRESS, COMPLETED, CANCELLED} ==> r.config == status
    ensures status !in {PENDING, IN_PROGRESS, COMPLETED, CANCELLED} ==> r == Badge(PENDING, "Menunggu")
  {
    if status == IN_PROGRESS then Badge(IN_PROGRESS, "Diproses")
    else if status == COMPLETED then Badge(COMPLETED, "Selesai")
    else if status == CANCELLED then Badge(CANCELLED, "Dibatalkan")
    else Badge(PENDING, "Menunggu")
  }

  /** The label table of the detail page's `getPaymentMethodLabel`. */
  const METHOD_LABELS: map<string, string> := map[
    "CASH" := "Tunai",
    "CREDIT_CARD" := "Kartu Kredit",
    "DEBIT_CARD" := "Kartu Debit",
    "TRANSFER" := "Transfer Bank",
    "INSTALLMENT" := "Cicilan"]

  /** `labels[method] || method`. */
  function PaymentMethodLabel(code: string): (r: string)
    ensures code in METHOD_LABELS ==> r == METHOD_LABELS[code] && r != ""
    ensures code !in METHOD_LABELS ==> r == code
  {
    if code in METHOD_LABELS && METHOD_LABELS[code] != "" then METHOD_LABELS[code] else code
  }
}
