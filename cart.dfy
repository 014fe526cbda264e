/** The sales cart of the create-transaction page: the list of selected products,
    the product-id-to-quantity map sent to the transaction service (kept in step
    with that list), the amounts derived from it, the LUNAS/CICILAN payment rule,
    and the checks made before the create request is sent. */
module Cart {
  import opened Base

  /** A product of the catalog loaded when the page opens. */
  datatype Product = Product(id: string, name: string, price: int, stock: int)

  /** An entry of `selectedProducts`: a copy of the catalog product with its quantity. */
  datatype Line = Line(product: Product, quantity: int)

  /** The `formData` object of the page. */
  datatype FormData = FormData(
    customerId: string,
    paymentMethod: string,
    productQuantities: map<string, int>,
    amountPaid: int,
    paymentStatus: string)

  /** The body of the create request. */
  datatype CreateRequest = CreateRequest(
    customerId: string,
    paymentMethod: string,
    amount: int,
    productQuantities: map<string, int>)

  /** Which branch `updateQuantity` took. `NotInCatalog` is the case where
      `products.find` yields `undefined` and reading its stock throws, so
      nothing changes. */
  datatype QuantityOutcome = Removed | NotInCatalog | OverStock | Updated

  const INITIAL_FORM := FormData("", "CASH", map[], 0, LUNAS)

  const MSG_LOAD_FAILED := "Gagal memuat produk"
  const MSG_NO_PRODUCT := "Pilih minimal satu produk"
  const MSG_NO_CUSTOMER := "Silakan pilih atau tambahkan pelanggan"
  const MSG_LUNAS_SHORT := "Jumlah pembayaran tidak boleh kurang dari total untuk status Lunas"
  const MSG_CICILAN_FULL := "Untuk status Cicilan, jumlah pembayaran harus kurang dari total"
  const MSG_NEGATIVE := "Jumlah pembayaran tidak boleh negatif"
  const MSG_SUBMIT_FAILED := "Terjadi kesalahan saat memproses transaksi"
  const MSG_SUBMITTED := "Transaksi berhasil!"

  /** The out-of-stock message: it names the product and ends with its stock. */
  function StockMessage(p: Product): (r: string)
    ensures |r| >= 27 + |p.name| && r[27..27 + |p.name|] == p.name
    ensures |r| >= |IntString(p.stock)| && r[|r| - |IntString(p.stock)|..] == IntString(p.stock)
  {
    "Stok tidak mencukupi untuk " + p.name + ". Stok tersedia: " + IntString(p.stock)
  }

  function IdOf(l: Line): string {
    l.product.id
  }

  function Ids(lines: seq<Line>): set<string> {
    set i | 0 <= i < |lines| :: lines[i].product.id
  }

  /** No product id is selected twice. The trigger keeps the solver from
      pairing up every line it sees; `Distinct` applies the property. */
  predicate UniqueIds(lines: seq<Line>) {
    forall i, j {:trigger IdOf(lines[i]), IdOf(lines[j])} :: 0 <= i < j < |lines| ==> IdOf(lines[i]) != IdOf(lines[j])
  }

  lemma Distinct(lines: seq<Line>, i: int, j: int)
    requires UniqueIds(lines) && 0 <= i < |lines| && 0 <= j < |lines| && i != j
    ensures lines[i].product.id != lines[j].product.id
  {
    if i < j {
      assert IdOf(lines[i]) != IdOf(lines[j]);
    } else {
      assert IdOf(lines[j]) != IdOf(lines[i]);
    }
  }

  /** `selectedProducts.find(p => p.id === id)`. */
  function FindLine(lines: seq<Line>, id: string): (r: Option<Line>)
    ensures r.Some? <==> id in Ids(lines)
    ensures r.Some? ==> r.value in lines && r.value.product.id == id
  {
    if lines == [] then None
    else if lines[0].product.id == id then Some(lines[0])
    else
      assert forall i :: 1 <= i < |lines| ==> lines[i] == lines[1..][i - 1];
      assert Ids(lines) == {lines[0].product.id} + Ids(lines[1..]);
      FindLine(lines[1..], id)
  }

  /** A position of a selected id. */
  lemma IndexOfId(lines: seq<Line>, id: string) returns (k: int)
    requires id in Ids(lines)
    ensures 0 <= k < |lines| && lines[k].product.id == id
  {
    k :| 0 <= k < |lines| && lines[k].product.id == id;
  }

  lemma UniqueTail(lines: seq<Line>)
    requires UniqueIds(lines) && lines != []
    ensures UniqueIds(lines[1..])
  {
    var rest := lines[1..];
    forall i, j | 0 <= i < j < |rest| ensures IdOf(rest[i]) != IdOf(rest[j]) {
      assert rest[i] == lines[i + 1] && rest[j] == lines[j + 1];
      assert IdOf(lines[i + 1]) != IdOf(lines[j + 1]);
    }
  }

  lemma UniquePrefix(lines: seq<Line>, n: int)
    requires UniqueIds(lines) && 0 <= n <= |lines|
    ensures UniqueIds(lines[..n])
  {
    var p := lines[..n];
    forall i, j | 0 <= i < j < |p| ensures IdOf(p[i]) != IdOf(p[j]) {
      assert p[i] == lines[i] && p[j] == lines[j];
      assert IdOf(lines[i]) != IdOf(lines[j]);
    }
  }

  /** With unique ids, `find` returns the one line of that id. */
  lemma {:induction false} FindLineUnique(lines: seq<Line>, id: string, k: int)
    requires UniqueIds(lines) && 0 <= k < |lines| && lines[k].product.id == id
    ensures FindLine(lines, id) == Some(lines[k])
  {
    if k > 0 {
      var rest := lines[1..];
      Distinct(lines, 0, k);
      UniqueTail(lines);
      assert rest[k - 1] == lines[k];
      FindLineUnique(rest, id, k - 1);
    }
  }

  /** The quantity of the line `find` returns, 0 when none is found. */
  function SelectedQuantity(lines: seq<Line>, id: string): int {
    match FindLine(lines, id)
    case Some(l) => l.quantity
    case None => 0
  }

  /** `products.find(p => p.id === id)`: the first catalog entry with that id. */
  function FindProduct(products: seq<Product>, id: string): (r: Option<Product>)
    ensures r.Some? ==> r.value in products && r.value.id == id
    ensures r.None? ==> forall p :: p in products ==> p.id != id
  {
    if products == [] then None
    else if products[0].id == id then Some(products[0])
    else FindProduct(products[1..], id)
  }

  /** `selectedProducts.map(p => p.id === id ? { ...p, quantity: q } : p)`. */
  function WithQuantity(lines: seq<Line>, id: string, q: int): (r: seq<Line>)
    ensures |r| == |lines|
    ensures forall i :: 0 <= i < |lines| ==>
      r[i] == if lines[i].product.id == id then Line(lines[i].product, q) else lines[i]
  {
    seq(|lines|, i requires 0 <= i < |lines| =>
      if lines[i].product.id == id then Line(lines[i].product, q) else lines[i])
  }

  /** `selectedProducts.filter(p => p.id !== id)`. */
  function Without(lines: seq<Line>, id: string): (r: seq<Line>)
    ensures forall l :: l in r <==> l in lines && l.product.id != id
    ensures |r| <= |lines|
  {
    if lines == [] then []
    else if lines[0].product.id == id then Without(lines[1..], id)
    else [lines[0]] + Without(lines[1..], id)
  }

  lemma IdsMembership(lines: seq<Line>, id: string)
    ensures id in Ids(lines) <==> exists l :: l in lines && l.product.id == id
  {
    if id in Ids(lines) {
      var i :| 0 <= i < |lines| && lines[i].product.id == id;
      assert lines[i] in lines;
    }
  }

  lemma IdsWithQuantity(lines: seq<Line>, id: string, q: int)
    ensures Ids(WithQuantity(lines, id, q)) == Ids(lines)
    ensures UniqueIds(lines) ==> UniqueIds(WithQuantity(lines, id, q))
  {
    var r := WithQuantity(lines, id, q);
    forall i | 0 <= i < |lines| ensures r[i].product.id == lines[i].product.id { }
    if UniqueIds(lines) {
      forall i, j | 0 <= i < j < |r| ensures IdOf(r[i]) != IdOf(r[j]) {
        assert IdOf(lines[i]) != IdOf(lines[j]);
      }
    }
  }

  lemma AppendNewLine(lines: seq<Line>, l: Line)
    requires UniqueIds(lines) && l.product.id !in Ids(lines)
    ensures UniqueIds(lines + [l])
    ensures Ids(lines + [l]) == Ids(lines) + {l.product.id}
  {
    var r := lines + [l];
    forall i | 0 <= i < |lines| ensures r[i] == lines[i] { }
    assert r[|lines|] == l;
  }

  lemma {:induction false} WithoutUnique(lines: seq<Line>, id: string)
    requires UniqueIds(lines)
    ensures UniqueIds(Without(lines, id))
  {
    if lines != [] {
      var rest := lines[1..];
      UniqueTail(lines);
      WithoutUnique(rest, id);
      if lines[0].product.id != id {
        var r, t := Without(lines, id), Without(rest, id);
        assert r == [lines[0]] + t;
        forall i, j | 0 <= i < j < |r| ensures IdOf(r[i]) != IdOf(r[j]) {
          if i == 0 {
            assert r[j] == t[j - 1] && r[j] in rest;
            var k :| 0 <= k < |rest| && rest[k] == r[j];
            assert rest[k] == lines[k + 1];
            Distinct(lines, 0, k + 1);
          } else {
            assert r[i] == t[i - 1] && r[j] == t[j - 1];
            assert IdOf(t[i - 1]) != IdOf(t[j - 1]);
          }
        }
      }
    }
  }

  lemma WithoutIds(lines: seq<Line>, id: string)
    ensures Ids(Without(lines, id)) == Ids(lines) - {id}
  {
    var r := Without(lines, id);
    forall x ensures x in Ids(r) <==> x in Ids(lines) - {id} {
      IdsMembership(r, x);
      IdsMembership(lines, x);
    }
  }

  /** Removing an id keeps the ids unique and takes exactly that id away. */
  lemma WithoutKeepsUniqueIds(lines: seq<Line>, id: string)
    requires UniqueIds(lines)
    ensures UniqueIds(Without(lines, id))
    ensures Ids(Without(lines, id)) == Ids(lines) - {id}
  {
    WithoutUnique(lines, id);
    WithoutIds(lines, id);
  }

  /** `calculateTotal`: Σ price × quantity, folded from the left from 0. */
  function Total(lines: seq<Line>): (r: int)
    ensures lines == [] ==> r == 0
  {
    if lines == [] then 0
    else Total(lines[..|lines| - 1]) + lines[|lines| - 1].product.price * lines[|lines| - 1].quantity
  }

  function LineAmount(l: Line): int {
    l.product.price * l.quantity
  }

  /** The total is never negative when no price or quantity is. */
  lemma {:induction false} TotalNonNegative(lines: seq<Line>)
    requires forall i :: 0 <= i < |lines| ==> lines[i].product.price >= 0 && lines[i].quantity >= 0
    ensures Total(lines) >= 0
  {
    if lines != [] {
      var p := lines[..|lines| - 1];
      assert forall i :: 0 <= i < |p| ==> p[i] == lines[i];
      TotalNonNegative(p);
      var l := lines[|lines| - 1];
      assert l.product.price * l.quantity >= 0;
    }
  }

  lemma {:induction false} TotalAppend(a: seq<Line>, b: seq<Line>)
    ensures Total(a + b) == Total(a) + Total(b)
  {
    if b != [] {
      var b' := b[..|b| - 1];
      assert (a + b)[..|a + b| - 1] == a + b';
      TotalAppend(a, b');
    } else {
      assert a + b == a;
    }
  }

  lemma TotalCons(l: Line, rest: seq<Line>)
    ensures Total([l] + rest) == LineAmount(l) + Total(rest)
  {
    TotalAppend([l], rest);
    assert [l][..0] == [];
  }

  /** Changing the quantity of the selected product at index `k` changes the
      total by its price times the difference. */
  lemma {:induction false} TotalWithQuantity(lines: seq<Line>, k: int, q: int)
    requires UniqueIds(lines) && 0 <= k < |lines|
    ensures Total(WithQuantity(lines, lines[k].product.id, q))
            == Total(lines) + lines[k].product.price * (q - lines[k].quantity)
  {
    var id := lines[k].product.id;
    var n := |lines| - 1;
    var p := lines[..n];
    var r := WithQuantity(lines, id, q);
    assert r[..n] == WithQuantity(p, id, q);
    if k == n {
      forall i | 0 <= i < n ensures p[i].product.id != id {
        Distinct(lines, i, n);
      }
      assert WithQuantity(p, id, q) == p;
    } else {
      UniquePrefix(lines, n);
      Distinct(lines, k, n);
      TotalWithQuantity(p, k, q);
    }
  }

  /** Removing a selected product takes its line amount off the total; removing an
      id that is not selected leaves the total as it was. */
  /** Removing an id that is not selected leaves the lines as they were. */
  lemma {:induction false} WithoutAbsent(lines: seq<Line>, id: string)
    requires id !in Ids(lines)
    ensures Without(lines, id) == lines
  {
    if lines != [] {
      assert lines[0].product.id in Ids(lines);
      assert Ids(lines[1..]) <= Ids(lines) by {
        forall i | 0 <= i < |lines[1..]| ensures lines[1..][i] == lines[i + 1] { }
      }
      WithoutAbsent(lines[1..], id);
      assert lines == [lines[0]] + lines[1..];
    }
  }

  lemma {:induction false} TotalWithout(lines: seq<Line>, id: string)
    requires UniqueIds(lines)
    ensures id in Ids(lines) ==> Total(Without(lines, id)) == Total(lines) - LineAmount(FindLine(lines, id).value)
    ensures id !in Ids(lines) ==> Total(Without(lines, id)) == Total(lines)
  {
    if id !in Ids(lines) {
      WithoutAbsent(lines, id);
    } else {
      var rest := lines[1..];
      assert lines == [lines[0]] + rest;
      TotalCons(lines[0], rest);
      UniqueTail(lines);
      assert Ids(lines) == {lines[0].product.id} + Ids(rest) by {
        forall i | 1 <= i < |lines| ensures lines[i] == rest[i - 1] { }
      }
      if lines[0].product.id == id {
        assert id !in Ids(rest) by {
          forall i | 0 <= i < |rest| ensures rest[i].product.id != id {
            assert rest[i] == lines[i + 1];
            Distinct(lines, 0, i + 1);
          }
        }
        WithoutAbsent(rest, id);
        assert Without(lines, id) == rest;
        assert FindLine(lines, id) == Some(lines[0]);
      } else {
        TotalWithout(rest, id);
        assert Without(lines, id) == [lines[0]] + Without(rest, id);
        assert FindLine(lines, id) == FindLine(rest, id);
        TotalCons(lines[0], Without(rest, id));
      }
    }
  }

  /** `calculateChange`: `Math.max(0, amountPaid - total)`. */
  function Change(paid: int, total: int): (r: int)
    ensures r >= 0 && r >= paid - total
    ensures r == 0 || r == paid - total
  {
    Max(0, paid - total)
  }

  /** `calculateOutstanding`: `Math.max(0, total - amountPaid)`. */
  function Outstanding(paid: int, total: int): (r: int)
    ensures r >= 0 && r >= total - paid
    ensures r == 0 || r == total - paid
  {
    Max(0, total - paid)
  }

  /** Change and outstanding balance are never both positive, and their
      difference is exactly the over- or under-payment. */
  lemma ChangeAndOutstanding(paid: int, total: int)
    ensures Change(paid, total) == 0 || Outstanding(paid, total) == 0
    ensures Change(paid, total) - Outstanding(paid, total) == paid - total
    ensures Change(paid, total) > 0 <==> paid > total
    ensures Outstanding(paid, total) > 0 <==> paid < total
  {
  }

  /** `validatePayment`: `None` is JavaScript's `null` (no error); the checks run
      in the order LUNAS, CICILAN, negative amount. */
  function ValidatePayment(status: string, paid: int, total: int): (r: Option<string>)
    ensures r.None? <==> (status == LUNAS ==> paid >= total) && (status == CICILAN ==> paid < total) && paid >= 0
    ensures r == Some(MSG_LUNAS_SHORT) <==> status == LUNAS && paid < total
    ensures r == Some(MSG_CICILAN_FULL) <==> status == CICILAN && paid >= total
    ensures r == Some(MSG_NEGATIVE) <==>
      paid < 0 && !(status == LUNAS && paid < total) && !(status == CICILAN && paid >= total)
  {
    if status == LUNAS && paid < total then Some(MSG_LUNAS_SHORT)
    else if status == CICILAN && paid >= total then Some(MSG_CICILAN_FULL)
    else if paid < 0 then Some(MSG_NEGATIVE)
    else None
  }

  /** The checks `handleSubmit` makes before it sends anything, in its order:
      an empty cart, a missing customer, then the payment rule. */
  function SubmitCheck(lines: seq<Line>, form: FormData): (r: Option<string>)
    ensures lines == [] ==> r == Some(MSG_NO_PRODUCT)
    ensures lines != [] && form.customerId == "" ==> r == Some(MSG_NO_CUSTOMER)
    ensures lines != [] && form.customerId != "" ==>
      r == ValidatePayment(form.paymentStatus, form.amountPaid, Total(lines))
    ensures r.None? <==>
      && lines != [] && form.customerId != ""
      && (form.paymentStatus == LUNAS ==> form.amountPaid >= Total(lines))
      && (form.paymentStatus == CICILAN ==> form.amountPaid < Total(lines))
      && form.amountPaid >= 0
  {
    if |lines| == 0 then Some(MSG_NO_PRODUCT)
    else if form.customerId == "" then Some(MSG_NO_CUSTOMER)
    else ValidatePayment(form.paymentStatus, form.amountPaid, Total(lines))
  }

  /** What `updateQuantity` leaves behind: the branch taken, the selected
      lines, the form and the error message. */
  datatype QuantityStep = QuantityStep(outcome: QuantityOutcome, lines: seq<Line>, form: FormData, error: string)

  /** `updateQuantity` on the page state `s0`, `f0`, `e0`: a quantity of 0 or
      less removes the line; an id missing from the catalog changes nothing;
      a quantity over the catalog stock only sets the stock message; any
      other quantity replaces that line's quantity and map entry and clears
      the message. While the status is LUNAS the amount paid follows the new
      total of a removal or an update. */
  function UpdateQuantityStep(products: seq<Product>, s0: seq<Line>, f0: FormData, e0: string,
                              id: string, newQuantity: int): (r: QuantityStep)
    ensures newQuantity <= 0 <==> r.outcome == Removed
    ensures r.outcome == NotInCatalog <==> newQuantity > 0 && FindProduct(products, id).None?
    ensures r.outcome == OverStock <==>
      newQuantity > 0 && FindProduct(products, id).Some? && newQuantity > FindProduct(products, id).value.stock
    ensures r.outcome == NotInCatalog || r.outcome == OverStock ==> r.lines == s0 && r.form == f0
    ensures r.outcome != OverStock ==> r.error == if r.outcome == Updated then "" else e0
    ensures r.outcome == OverStock ==> r.error == StockMessage(FindProduct(products, id).value)
    ensures r.outcome == Removed ==>
      r.lines == Without(s0, id) && r.form.productQuantities == f0.productQuantities - {id}
    ensures r.outcome == Updated ==>
      r.lines == WithQuantity(s0, id, newQuantity) && r.form.productQuantities == f0.productQuantities[id := newQuantity]
    ensures r.outcome == Removed || r.outcome == Updated ==>
      r.form == f0.(productQuantities := r.form.productQuantities,
                    amountPaid := if f0.paymentStatus == LUNAS then Total(r.lines) else f0.amountPaid)
  {
    var lunas := f0.paymentStatus == LUNAS;
    if newQuantity <= 0 then
      var s1 := Without(s0, id);
      QuantityStep(Removed, s1, f0.(productQuantities := f0.productQuantities - {id},
                                    amountPaid := if lunas then Total(s1) else f0.amountPaid), e0)
    else match FindProduct(products, id)
      case None => QuantityStep(NotInCatalog, s0, f0, e0)
      case Some(product) =>
        if newQuantity > product.stock then QuantityStep(OverStock, s0, f0, StockMessage(product))
        else
          var s1 := WithQuantity(s0, id, newQuantity);
          QuantityStep(Updated, s1, f0.(productQuantities := f0.productQuantities[id := newQuantity],
                                        amountPaid := if lunas then Total(s1) else f0.amountPaid), "")
  }

  /** The quantity `find` sees after an update is the new one. */
  lemma SelectedQuantityAfterUpdate(lines: seq<Line>, id: string, q: int)
    requires UniqueIds(lines) && id in Ids(lines)
    ensures SelectedQuantity(WithQuantity(lines, id, q), id) == q
  {
    var k := IndexOfId(lines, id);
    var r := WithQuantity(lines, id, q);
    IdsWithQuantity(lines, id, q);
    FindLineUnique(r, id, k);
  }

  /** A removal from a cart whose ids are unique and hold `id` drops exactly
      that id, keeps the rest unique and takes the line's amount off the total. */
  lemma RemovalEffect(products: seq<Product>, s0: seq<Line>, f0: FormData, e0: string,
                      id: string, newQuantity: int)
    requires UniqueIds(s0) && id in Ids(s0)
    requires newQuantity <= 0
    ensures var r := UpdateQuantityStep(products, s0, f0, e0, id, newQuantity);
      && UniqueIds(r.lines) && Ids(r.lines) == Ids(s0) - {id}
      && Total(r.lines) == Total(s0) - LineAmount(FindLine(s0, id).value)
  {
    WithoutKeepsUniqueIds(s0, id);
    TotalWithout(s0, id);
  }

  /** An update of a cart whose ids are unique and hold `id` keeps the ids
      and their uniqueness, gives `id` the new quantity and moves the total
      by the price times the change. */
  lemma UpdateEffect(products: seq<Product>, s0: seq<Line>, f0: FormData, e0: string,
                     id: string, newQuantity: int)
    requires UniqueIds(s0) && id in Ids(s0)
    requires newQuantity > 0 && FindProduct(products, id).Some? && newQuantity <= FindProduct(products, id).value.stock
    ensures var r := UpdateQuantityStep(products, s0, f0, e0, id, newQuantity);
      && UniqueIds(r.lines) && Ids(r.lines) == Ids(s0)
      && SelectedQuantity(r.lines, id) == newQuantity
    ensures var r := UpdateQuantityStep(products, s0, f0, e0, id, newQuantity);
      forall k :: 0 <= k < |s0| && s0[k].product.id == id ==>
        Total(r.lines) == Total(s0) + s0[k].product.price * (newQuantity - s0[k].quantity)
  {
    IdsWithQuantity(s0, id, newQuantity);
    SelectedQuantityAfterUpdate(s0, id, newQuantity);
    forall k | 0 <= k < |s0| && s0[k].product.id == id
      ensures Total(WithQuantity(s0, id, newQuantity)) == Total(s0) + s0[k].product.price * (newQuantity - s0[k].quantity)
    {
      TotalWithQuantity(s0, k, newQuantity);
    }
  }

  /** The state of the create-transaction page that the cart operations touch. */
  class CartPage {
    const products: seq<Product>
    var selectedProducts: seq<Line>
    var formData: FormData
    var errorMessage: string
    var successMessage: string
    var loading: bool

    /** A selected line's quantity is at least 1, and above 1 only if the
        catalog stock allows it (a product is added with quantity 1 without
        looking at its stock; only an increase is checked). */
    predicate WithinStock(l: Line) {
      l.quantity >= 1 &&
      (l.quantity == 1 ||
        (FindProduct(products, l.product.id).Some? && l.quantity <= FindProduct(products, l.product.id).value.stock))
    }

    /** `selectedProducts` and `formData.productQuantities` in lock-step. */
    ghost predicate Valid()
      reads this
    {
      && UniqueIds(selectedProducts)
      && formData.productQuantities.Keys == Ids(selectedProducts)
      && (forall i :: 0 <= i < |selectedProducts| ==>
            formData.productQuantities[selectedProducts[i].product.id] == selectedProducts[i].quantity)
      && (forall i :: 0 <= i < |selectedProducts| ==> WithinStock(selectedProducts[i]))
    }

    /** The page after it has mounted and the catalog request has settled:
        `None` stands for a failed request. */
    constructor (catalog: Option<seq<Product>>)
      ensures Valid()
      ensures products == catalog.GetOr([])
      ensures selectedProducts == [] && formData == INITIAL_FORM
      ensures errorMessage == (if catalog.None? then MSG_LOAD_FAILED else "")
      ensures successMessage == "" && !loading
    {
      products := catalog.GetOr([]);
      selectedProducts := [];
      formData := INITIAL_FORM;
      errorMessage := if catalog.None? then MSG_LOAD_FAILED else "";
      successMessage := "";
      loading := false;
    }

    /** The effect that runs whenever `selectedProducts` is replaced: while the
        status is LUNAS the amount paid follows the total. */
    method SyncAmountPaid()
      modifies this
      ensures selectedProducts == old(selectedProducts) && errorMessage == old(errorMessage)
      ensures successMessage == old(successMessage) && loading == old(loading)
      ensures formData == old(formData).(amountPaid :=
        if old(formData).paymentStatus == LUNAS then Total(selectedProducts) else old(formData).amountPaid)
    {
      if formData.paymentStatus == LUNAS {
        formData := formData.(amountPaid := Total(selectedProducts));
      }
    }

    /** `removeProduct`. */
    method RemoveProduct(id: string)
      requires Valid()
      modifies this
      ensures Valid()
      ensures selectedProducts == Without(old(selectedProducts), id)
      ensures Ids(selectedProducts) == Ids(old(selectedProducts)) - {id}
      ensures formData == old(formData).(
        productQuantities := old(formData).productQuantities - {id},
        amountPaid := if old(formData).paymentStatus == LUNAS then Total(selectedProducts) else old(formData).amountPaid)
      ensures errorMessage == old(errorMessage) && successMessage == old(successMessage) && loading == old(loading)
    {
      WithoutKeepsUniqueIds(selectedProducts, id);
      ghost var before := selectedProducts;
      selectedProducts := Without(selectedProducts, id);
      formData := formData.(productQuantities := formData.productQuantities - {id});
      forall i | 0 <= i < |selectedProducts|
        ensures formData.productQuantities[selectedProducts[i].product.id] == selectedProducts[i].quantity
        ensures WithinStock(selectedProducts[i])
      {
        assert selectedProducts[i] in before;
      }
      SyncAmountPaid();
    }

    /** `updateQuantity`. Both of the page's callers pass the id of a selected product. */
    method UpdateQuantity(id: string, newQuantity: int) returns (outcome: QuantityOutcome)
      requires Valid() && id in Ids(selectedProducts)
      modifies this
      ensures Valid()
      ensures QuantityStep(outcome, selectedProducts, formData, errorMessage)
        == UpdateQuantityStep(products, old(selectedProducts), old(formData), old(errorMessage), id, newQuantity)
      ensures Ids(selectedProducts) == if outcome == Removed then Ids(old(selectedProducts)) - {id}
                                       else Ids(old(selectedProducts))
      ensures successMessage == old(successMessage) && loading == old(loading)
    {
      if newQuantity <= 0 {
        RemoveProduct(id);
        return Removed;
      }
      var product := FindProduct(products, id);
      if product.None? {
        return NotInCatalog;
      }
      if newQuantity > product.value.stock {
        errorMessage := StockMessage(product.value);
        return OverStock;
      }
      SetQuantity(id, newQuantity);
      outcome := Updated;
    }

    /** The last branch of `updateQuantity`: the line and the map entry of `id`
        take the new quantity, which the catalog stock allows. */
    method SetQuantity(id: string, newQuantity: int)
      requires Valid() && id in Ids(selectedProducts) && newQuantity >= 1
      requires FindProduct(products, id).Some? && newQuantity <= FindProduct(products, id).value.stock
      modifies this
      ensures Valid()
      ensures selectedProducts == WithQuantity(old(selectedProducts), id, newQuantity)
      ensures Ids(selectedProducts) == Ids(old(selectedProducts))
      ensures formData == old(formData).(
        productQuantities := old(formData).productQuantities[id := newQuantity],
        amountPaid := if old(formData).paymentStatus == LUNAS then Total(selectedProducts) else old(formData).amountPaid)
      ensures errorMessage == "" && successMessage == old(successMessage) && loading == old(loading)
    {
      ghost var before := selectedProducts;
      IdsWithQuantity(before, id, newQuantity);
      selectedProducts := WithQuantity(selectedProducts, id, newQuantity);
      formData := formData.(productQuantities := formData.productQuantities[id := newQuantity]);
      forall i | 0 <= i < |selectedProducts|
        ensures formData.productQuantities[selectedProducts[i].product.id] == selectedProducts[i].quantity
        ensures WithinStock(selectedProducts[i])
      {
        assert selectedProducts[i].product == before[i].product;
      }
      errorMessage := "";
      SyncAmountPaid();
    }

    /** `addProduct`: a product already in the cart goes through `updateQuantity`
        with its quantity plus one; a new one is appended with quantity 1. */
    method AddProduct(product: Product) returns (outcome: QuantityOutcome)
      requires Valid()
      modifies this
      ensures Valid()
      ensures product.id !in Ids(old(selectedProducts)) ==>
        && outcome == Updated
        && selectedProducts == old(selectedProducts) + [Line(product, 1)]
        && formData == old(formData).(
             productQuantities := old(formData).productQuantities[product.id := 1],
             amountPaid := if old(formData).paymentStatus == LUNAS then Total(selectedProducts)
                           else old(formData).amountPaid)
        && errorMessage == old(errorMessage)
      ensures product.id in Ids(old(selectedProducts)) ==>
        && outcome != Removed
        && QuantityStep(outcome, selectedProducts, formData, errorMessage)
          == UpdateQuantityStep(products, old(selectedProducts), old(formData), old(errorMessage),
                                product.id, SelectedQuantity(old(selectedProducts), product.id) + 1)
      ensures Ids(selectedProducts) == Ids(old(selectedProducts)) + {product.id}
      ensures successMessage == old(successMessage) && loading == old(loading)
    {
      if product.id in Ids(selectedProducts) {
        ghost var ids := Ids(selectedProducts);
        assert ids + {product.id} == ids;
        outcome := UpdateQuantity(product.id, SelectedQuantity(selectedProducts, product.id) + 1);
      } else {
        AppendLine(product);
        outcome := Updated;
      }
    }

    /** The `else` branch of `addProduct`: the product is not in the cart yet. */
    method AppendLine(product: Product)
      requires Valid() && product.id !in Ids(selectedProducts)
      modifies this
      ensures Valid()
      ensures selectedProducts == old(selectedProducts) + [Line(product, 1)]
      ensures Ids(selectedProducts) == Ids(old(selectedProducts)) + {product.id}
      ensures formData == old(formData).(
        productQuantities := old(formData).productQuantities[product.id := 1],
        amountPaid := if old(formData).paymentStatus == LUNAS then Total(selectedProducts) else old(formData).amountPaid)
      ensures errorMessage == old(errorMessage) && successMessage == old(successMessage) && loading == old(loading)
    {
      ghost var before := selectedProducts;
      AppendNewLine(before, Line(product, 1));
      selectedProducts := selectedProducts + [Line(product, 1)];
      formData := formData.(productQuantities := formData.productQuantities[product.id := 1]);
      forall i | 0 <= i < |selectedProducts|
        ensures formData.productQuantities[selectedProducts[i].product.id] == selectedProducts[i].quantity
        ensures WithinStock(selectedProducts[i])
      {
        if i < |before| {
          assert selectedProducts[i] == before[i];
          assert before[i].product.id in Ids(before);
        }
      }
      SyncAmountPaid();
    }

    /** `handlePaymentStatusChange`: LUNAS sets the amount paid to the total,
        any other status keeps it. */
    method SetPaymentStatus(status: string)
      requires Valid()
      modifies this
      ensures Valid()
      ensures formData == old(formData).(
        paymentStatus := status,
        amountPaid := if status == LUNAS then Total(selectedProducts) else old(formData).amountPaid)
      ensures selectedProducts == old(selectedProducts) && errorMessage == old(errorMessage)
      ensures successMessage == old(successMessage) && loading == old(loading)
    {
      formData := formData.(
        paymentStatus := status,
        amountPaid := if status == LUNAS then Total(selectedProducts) else formData.amountPaid);
    }

    /** `handleAmountPaidChange`, on an already-parsed amount. */
    method SetAmountPaid(amount: int)
      requires Valid()
      modifies this
      ensures Valid()
      ensures formData == old(formData).(amountPaid := amount)
      ensures selectedProducts == old(selectedProducts) && errorMessage == old(errorMessage)
      ensures successMessage == old(successMessage) && loading == old(loading)
    {
      formData := formData.(amountPaid := amount);
    }

    /** Picking a customer from the search results. */
    method SelectCustomer(customerId: string)
      requires Valid()
      modifies this
      ensures Valid()
      ensures formData == old(formData).(customerId := customerId)
      ensures selectedProducts == old(selectedProducts) && errorMessage == old(errorMessage)
      ensures successMessage == old(successMessage) && loading == old(loading)
    {
      formData := formData.(customerId := customerId);
    }

    /** Choosing a payment method. */
    method SelectPaymentMethod(paymentMethod: string)
      requires Valid()
      modifies this
      ensures Valid()
      ensures formData == old(formData).(paymentMethod := paymentMethod)
      ensures selectedProducts == old(selectedProducts) && errorMessage == old(errorMessage)
      ensures successMessage == old(successMessage) && loading == old(loading)
    {
      formData := formData.(paymentMethod := paymentMethod);
    }

    /** `handleSubmit`. `reply` is what the transaction service answers if the
        request is sent; `request` is the request sent, `None` when none is. */
    method Submit(reply: Reply) returns (request: Option<CreateRequest>)
      requires Valid()
      modifies this
      ensures Valid()
      ensures request.None? <==> SubmitCheck(old(selectedProducts), old(formData)).Some?
      ensures request.None? ==>
        && errorMessage == SubmitCheck(old(selectedProducts), old(formData)).value
        && selectedProducts == old(selectedProducts) && formData == old(formData)
        && successMessage == old(successMessage) && loading == old(loading)
      ensures request.Some? ==>
        request.value == CreateRequest(old(formData).customerId, old(formData).paymentMethod,
                                       old(formData).amountPaid, old(formData).productQuantities)
      ensures request.Some? && reply.Accepted? ==>
        && selectedProducts == [] && formData == INITIAL_FORM
        && successMessage == MSG_SUBMITTED && errorMessage == ""
      ensures request.Some? && reply.Rejected? ==>
        && selectedProducts == old(selectedProducts) && formData == old(formData)
        && errorMessage == (if reply.message != "" then reply.message else MSG_SUBMIT_FAILED)
        && successMessage == old(successMessage)
      ensures request.Some? ==> !loading
    {
      var failure := SubmitCheck(selectedProducts, formData);
      if failure.Some? {
        errorMessage := failure.value;
        return None;
      }
      loading := true;
      errorMessage := "";
      var dto := CreateRequest(formData.customerId, formData.paymentMethod,
                               formData.amountPaid, formData.productQuantities);
      request := Some(dto);
      match reply {
        case Accepted =>
          successMessage := MSG_SUBMITTED;
          formData := INITIAL_FORM;
          selectedProducts := [];
          SyncAmountPaid();
        case Rejected(message) =>
          errorMessage := if message != "" then message else MSG_SUBMIT_FAILED;
      }
      loading := false;
    }
  }

  /** The cart's quantities stay within 1..stock whenever the catalog stock of
      each selected product is positive. */
  lemma QuantitiesWithinStock(page: CartPage, i: int)
    requires page.Valid() && 0 <= i < |page.selectedProducts|
    requires var p := FindProduct(page.products, page.selectedProducts[i].product.id);
      p.Some? && p.value.stock >= 1
    ensures 1 <= page.selectedProducts[i].quantity <= FindProduct(page.products, page.selectedProducts[i].product.id).value.stock
  {
  }
}
