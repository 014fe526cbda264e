# buildingstore-fe: a Dafny model of the point-of-sale front end's client logic

The building-store front end is a React application for a point of sale. Its
pages are mostly forms around REST calls. Underneath the markup, each page
keeps some state and applies a few exact rules to it. This project models
those rules and proves what they guarantee.

- **Sales cart** (`Cart`, `src/pages/transaction/CreateTransaction.js`):
  - The selected products and the `productQuantities` map move in lock-step.
  - Quantities are bounded by the catalog stock.
  - The derived amounts are the total, the change and the outstanding balance.
  - The LUNAS/CICILAN payment rule and the pre-checks of the create request decide whether it is sent.
- **Transaction history** (`History`, `src/pages/transaction/TransactionHistory.js`):
  - a conjunctive filter over keyword, status, payment method and an inclusive date range;
  - the keyed sort, as an in-place sort of an array driven by the page's comparator;
  - ten-per-page pagination with clamped previous/next;
  - the payment-method labels and the actions offered on each row.
- **Transaction number** (`TrxNumber`): the `TRX-n` display number, computed from the UUID by a 32-bit string hash. The history, detail and edit pages each contain an identical copy of it.
- **Edit page** (`UpdateTxn`, `src/pages/transaction/UpdateTransaction.js`):
  - which statuses may be edited, and the form's defaults;
  - the installment checks of `handleSave` and the cumulative amount it sends;
  - the remaining balance, and the payment-method names.
- **Detail page** (`Detail`, `src/pages/transaction/TransactionDetail.js`):
  - the cancel and delete permissions;
  - the item and kind counts, the unpaid amount and the line subtotal;
  - the status-badge fallback and the payment-method labels.
- **Cross-page agreement** (`Lifecycle`): how the guards and the label tables of the three transaction pages agree, and where they do not.
- **Profile** (`Profile`, `src/pages/Profile.js`):
  - the ordered checks of the password change and the message for each kind of failure;
  - the show/hide toggles and the role display name.
- **Session** (`Session`, `src/pages/Login.js`, `src/components/Navbar.js`, `src/components/ProtectedRoute.js`, `src/App.js`):
  - the token and role in browser storage, written by the login and cleared by the logout;
  - the menu shown for them;
  - the role guard, and the route table with React Router's default matching (letter case and trailing slashes ignored).

JavaScript behaviour that matters here is written out explicitly:

- int32 wrap-around in the hash;
- `||` truthiness of strings and numbers;
- `NaN` as `None`;
- absent fields as `Option`, and an item quantity as a number, `null` or `undefined`, which `+` treats differently.

Money and timestamps are whole integers.

A page component is modelled as a class whose fields are its state variables. Its event handlers are methods. A React effect that re-runs when the state changes is folded into the methods that change that state:

- the LUNAS amount-paid effect of the cart;
- the filter effect of the history page.

The server is a parameter: a method that sends a request receives the answer as an argument.

## Model

| member | source | states |
|---|---|---|
| Base.OrElse | src/pages/transaction/UpdateTransaction.js:61-62 | `x \|\| fallback` on an optional string: the value when it is truthy (present and non-empty), the fallback otherwise |
| Base.NumOr | src/pages/transaction/TransactionDetail.js:342 | `n \|\| fallback` on an optional number: the number when it is present and non-zero, the fallback otherwise |
| Base.Decimal | src/pages/transaction/TransactionHistory.js:36 | the `${n}` rendering is a non-empty string of digits with no leading zero except for 0 itself |
| Base.DecimalRoundTrip | src/pages/transaction/TransactionHistory.js:36 | reading the rendering back as digits gives the number |
| TrxNumber.ToInt32 | src/pages/transaction/TransactionHistory.js:32-33 | ECMAScript ToInt32 yields a signed 32-bit value congruent to its argument modulo 2^32 |
| TrxNumber.Step | src/pages/transaction/TransactionHistory.js:32-33 | one pass of the loop body leaves an int32 hash |
| TrxNumber.Hash | src/pages/transaction/TransactionHistory.js:29-34 | the hash after the loop, started at 0, is an int32 |
| TrxNumber.StepIsTimes31 | src/pages/transaction/TransactionHistory.js:32-33 | on an int32 hash, `((h << 5) - h) + c` followed by `& hash` is `int32(h * 31 + c)` |
| TrxNumber.HashIsWrappedPolynomial | src/pages/transaction/TransactionHistory.js:29-34 | the loop's hash of a string is the 32-bit wrap of the polynomial hash Σ c_i·31^(n-1-i) |
| TrxNumber.Number | src/pages/transaction/TransactionHistory.js:35 | `Math.abs(hash) % 999999 + 1` lies in 1..999999 |
| TrxNumber.Label | src/pages/transaction/TransactionHistory.js:36 | the label starts with `TRX-` and has at least one character after it |
| TrxNumber.LabelShape | src/pages/transaction/TransactionHistory.js:28-37 | every label is `TRX-` followed by the canonical decimal of a number in 1..999999, and that number reads back from the label |
| TrxNumber.UuidToTrxNumber | src/pages/transaction/TransactionHistory.js:28-37 | the loop computes the label of the UUID, of the form `TRX-n` with 1 ≤ n ≤ 999999 (the edit and detail pages repeat it, e.g. src/pages/transaction/UpdateTransaction.js lines 31-40) |
| Cart.FindLine | src/pages/transaction/CreateTransaction.js:121 | `find` on the selected lines yields a line exactly when the id is selected, and the line it yields is a selected line of that id |
| Cart.FindLineUnique | src/pages/transaction/CreateTransaction.js:121 | when the ids are unique, `find` yields the line at the one index that holds the id |
| Cart.FindProduct | src/pages/transaction/CreateTransaction.js:142 | `find` on the catalog returns a catalog product of that id, or none when no product has that id |
| Cart.StockMessage | src/pages/transaction/CreateTransaction.js:144 | the out-of-stock message names the product and ends with its stock |
| Cart.WithQuantity | src/pages/transaction/CreateTransaction.js:148-150 | the `map` changes the quantity of the lines of that id and leaves every other line as it was |
| Cart.Without | src/pages/transaction/CreateTransaction.js:163 | the `filter` keeps exactly the lines of the other ids |
| Cart.WithoutAbsent | src/pages/transaction/CreateTransaction.js:163 | filtering out an id that is not selected leaves the lines as they were |
| Cart.AppendNewLine | src/pages/transaction/CreateTransaction.js:125 | appending a product not yet selected keeps the ids unique and adds its id |
| Cart.WithoutKeepsUniqueIds | src/pages/transaction/CreateTransaction.js:163 | removing an id keeps the ids unique and removes exactly that id |
| Cart.Total | src/pages/transaction/CreateTransaction.js:172-176 | `calculateTotal` of an empty cart is 0 |
| Cart.TotalNonNegative | src/pages/transaction/CreateTransaction.js:172-176 | the total is never negative when no price or quantity is |
| Cart.TotalAppend | src/pages/transaction/CreateTransaction.js:172-176 | the total of two concatenated carts is the sum of their totals |
| Cart.TotalWithQuantity | src/pages/transaction/CreateTransaction.js:148-176 | with unique ids, setting the quantity of the line at index k to q changes the total by that line's price × (q − its quantity) |
| Cart.TotalWithout | src/pages/transaction/CreateTransaction.js:162-176 | removing a selected product takes its price × quantity off the total; removing an unselected id leaves the total |
| Cart.Change | src/pages/transaction/CreateTransaction.js:178-180 | the change is never negative and is either 0 or paid − total |
| Cart.Outstanding | src/pages/transaction/CreateTransaction.js:182-184 | the outstanding balance is never negative and is either 0 or total − paid |
| Cart.ChangeAndOutstanding | src/pages/transaction/CreateTransaction.js:178-184 | at most one of change and outstanding is positive, change − outstanding = paid − total, and each is positive exactly on over- or under-payment |
| Cart.ValidatePayment | src/pages/transaction/CreateTransaction.js:203-219 | no error exactly when (LUNAS ⇒ paid ≥ total), (CICILAN ⇒ paid < total) and paid ≥ 0; each message exactly when its check is the first to fail, in the order LUNAS, CICILAN, negative |
| Cart.SubmitCheck | src/pages/transaction/CreateTransaction.js:221-236 | the empty-cart message first, then the missing-customer message, then the payment rule; nothing stops the request exactly when the cart is non-empty, a customer is chosen and the rule holds |
| Cart.CartPage.constructor | src/pages/transaction/CreateTransaction.js:12-48 | an empty cart with the initial form (`CASH`, LUNAS, nothing paid), the catalog loaded, and the load error when the catalog request fails |
| Cart.CartPage.SyncAmountPaid | src/pages/transaction/CreateTransaction.js:62-69 | while the status is LUNAS the amount paid becomes the total; nothing else changes |
| Cart.CartPage.RemoveProduct | src/pages/transaction/CreateTransaction.js:162-170 | the id leaves both the lines and the quantity map and nothing else does; the lock-step and stock invariant is kept |
| Cart.CartPage.UpdateQuantity | src/pages/transaction/CreateTransaction.js:136-160 | the outcome, the lines, the form and the error message are those `UpdateQuantityStep` gives for the old state; the ids lose `id` exactly on a removal; the cart invariant is kept |
| Cart.CartPage.SetQuantity | src/pages/transaction/CreateTransaction.js:148-159 | the line and the map entry of the id take the new quantity, the rest of the form is kept (the amount paid following the total under LUNAS), the error is cleared and the invariant is kept |
| Cart.CartPage.AddProduct | src/pages/transaction/CreateTransaction.js:120-134 | a new product is appended with quantity 1 and map entry 1 and the error is kept; a selected one ends as `updateQuantity` with its current quantity + 1 leaves it, which is never a removal; afterwards the product's id is selected and the invariant is kept |
| Cart.UpdateQuantityStep | src/pages/transaction/CreateTransaction.js:136-160 | a quantity ≤ 0 is exactly a removal; a product missing from the catalog changes nothing; a quantity over the catalog stock changes only the error, to the stock message; otherwise the id's line and map entry take the new quantity and the error is cleared; under LUNAS the amount paid of a removal or an update is the new total |
| Cart.SelectedQuantityAfterUpdate | src/pages/transaction/CreateTransaction.js:148-150 | after the `map` on a cart with unique ids, `find` sees the new quantity |
| Cart.RemovalEffect | src/pages/transaction/CreateTransaction.js:137-170 | a removal from a cart with unique ids drops exactly that id, keeps the ids unique and takes the line's price × quantity off the total |
| Cart.UpdateEffect | src/pages/transaction/CreateTransaction.js:148-176 | an update of a cart with unique ids keeps the ids and their uniqueness, gives the id the new quantity and changes the total by price × (new − old quantity) |
| Cart.CartPage.AppendLine | src/pages/transaction/CreateTransaction.js:124-133 | the new-product branch of `addProduct`: the line and the map entry are added together |
| Cart.CartPage.SetPaymentStatus | src/pages/transaction/CreateTransaction.js:194-201 | switching to LUNAS sets the amount paid to the total; any other status keeps the previous amount |
| Cart.CartPage.SetAmountPaid | src/pages/transaction/CreateTransaction.js:186-192 | only the amount paid changes |
| Cart.CartPage.SelectCustomer | src/pages/transaction/CreateTransaction.js:383-387 | only the customer id changes |
| Cart.CartPage.SelectPaymentMethod | src/pages/transaction/CreateTransaction.js:415 | only the payment method changes |
| Cart.CartPage.Submit | src/pages/transaction/CreateTransaction.js:221-272 | no request exactly when a pre-check fails, and then its message is shown and nothing else changes; the request carries the form's customer, method, amount paid and quantity map; on success the cart and form are reset; on failure the service's message (or the fallback) is shown |
| Cart.QuantitiesWithinStock | src/pages/transaction/CreateTransaction.js:120-146 | in a valid cart, each selected quantity lies in 1..stock whenever that product's stock is positive |
| Base.Lower | src/pages/transaction/TransactionHistory.js:106-107 | `toLowerCase` keeps the length and lowers each ASCII letter |
| Base.LowerWithoutCapitals | src/pages/transaction/TransactionHistory.js:106-107 | `toLowerCase` leaves a string without capital letters unchanged |
| History.ContainsAt | src/pages/transaction/TransactionHistory.js:106-107 | `includes` holds exactly when the keyword occurs at some offset |
| History.KeywordPass | src/pages/transaction/TransactionHistory.js:105-110 | with no keyword everything passes, and a transaction is found by its own id in any letter case |
| History.StatusPass | src/pages/transaction/TransactionHistory.js:113-115 | with no status everything passes; with one, exactly the transactions of that status |
| History.MethodPass | src/pages/transaction/TransactionHistory.js:118-120 | with no method everything passes; with one, exactly the transactions of that method |
| History.DatePass | src/pages/transaction/TransactionHistory.js:123-128 | the range applies only when both ends are set; with both set, a passing transaction is dated within them (inclusive), so an undated one and every one under an inverted range are dropped |
| History.Matches | src/pages/transaction/TransactionHistory.js:105-128 | with no filter set every transaction passes |
| History.Keep | src/pages/transaction/TransactionHistory.js:105-127 | a `filter` keeps each passing transaction as often as it occurs and drops every other |
| History.FilterTransactions | src/pages/transaction/TransactionHistory.js:101-128 | the filtered list holds exactly the transactions that pass every set filter (keyword in id or customer id, equal status, equal method, date in the inclusive range when both ends are set), each as often as loaded |
| History.TextLessTotal | src/pages/transaction/TransactionHistory.js:140-152 | two different strings are ordered one way or the other by `<` |
| History.TextLessTransitive | src/pages/transaction/TransactionHistory.js:140-152 | string `<` is transitive |
| History.SortKey | src/pages/transaction/TransactionHistory.js:135-146 | a string key exactly for `status`, namely the status; for any field but `status` and `totalAmount`, the date, 0 when missing |
| History.Compare | src/pages/transaction/TransactionHistory.js:131-154 | the comparator returns 1 or −1, and 1 exactly when the first transaction's key may not precede the second's in the chosen direction |
| History.CompareHasNoTies | src/pages/transaction/TransactionHistory.js:149-153 | the comparator never answers 0: for equal keys both orders give −1, for different keys the two answers are opposite |
| History.InOrderTotal | src/pages/transaction/TransactionHistory.js:131-154 | of any two transactions one may precede the other |
| History.InOrderTransitive | src/pages/transaction/TransactionHistory.js:131-154 | the precedence of keys is transitive |
| History.SwapStep | src/pages/transaction/TransactionHistory.js:131-154 | swapping an element with a left neighbour the comparator puts after it moves the insertion one place left |
| History.InsertDone | src/pages/transaction/TransactionHistory.js:131-154 | an insertion that stops at the front or behind a neighbour that may precede it leaves the prefix sorted |
| History.Insert | src/pages/transaction/TransactionHistory.js:131 | one insertion step of the in-place sort extends the sorted prefix by one, leaves the rest, and permutes the array |
| History.SortTransactions | src/pages/transaction/TransactionHistory.js:131-154 | the in-place sort leaves the array ordered by the key (`totalAmount`, `status`, or the date), descending for `desc` and ascending otherwise, and a permutation of what it was |
| History.ListedMembers | src/pages/transaction/TransactionHistory.js:101-157 | a listed transaction is a loaded one passing every set filter, and every such transaction is listed |
| History.TotalPages | src/pages/transaction/TransactionHistory.js:220 | `Math.ceil(n / 10)`: enough pages for n rows, the last one non-empty, and none for no rows |
| History.Slice | src/pages/transaction/TransactionHistory.js:219 | `slice` clamps its end to the length and yields the elements from its start on |
| History.PageItems | src/pages/transaction/TransactionHistory.js:217-219 | page p is the rows (p−1)·10 .. p·10 − 1: at most 10, exactly 10 before the last page, non-empty up to the last page, empty after it |
| History.PagesUpToPrefix | src/pages/transaction/TransactionHistory.js:217-220 | the first k pages one after the other are the first 10k rows |
| History.AllPages | src/pages/transaction/TransactionHistory.js:217-220 | paging through all pages shows every row once, in order |
| History.PaymentMethodLabel | src/pages/transaction/TransactionHistory.js:186-198 | a known code gets its (non-empty) label; any other code is shown unchanged |
| History.KnownMethods | src/pages/transaction/TransactionHistory.js:187-196 | the label table knows exactly the eight codes CASH, CREDIT_CARD, DEBIT_CARD, BANK_TRANSFER, OVO, GOPAY, DANA, OTHER |
| History.RowActions | src/pages/transaction/TransactionHistory.js:396-417 | detail and delete on every row; cancel and edit exactly for PENDING and IN_PROGRESS |
| History.HistoryPage.constructor | src/pages/transaction/TransactionHistory.js:7-19 | nothing loaded, no filters, sorted by date descending, on page 1 |
| History.HistoryPage.ApplyFilters | src/pages/transaction/TransactionHistory.js:101-157 | the list becomes exactly the matching transactions, each as often as loaded and sorted by the key, and the page goes back to 1 |
| History.HistoryPage.Fetch | src/pages/transaction/TransactionHistory.js:39-66 | the loaded list (or an empty one and the error message after a failure) is stored and the filter effect lists it |
| History.HistoryPage.SetCriteria | src/pages/transaction/TransactionHistory.js:160-162 | a changed filter input re-lists and goes back to page 1; an unchanged one changes nothing |
| History.HistoryPage.SetSort | src/pages/transaction/TransactionHistory.js:298-304 | choosing a sort sets the field and direction and re-lists when either changed |
| History.HistoryPage.ClearFilters | src/pages/transaction/TransactionHistory.js:222-228 | all five filter inputs become empty while the sort field and direction stay |
| History.HistoryPage.PrevPage | src/pages/transaction/TransactionHistory.js:434-446 | the page becomes `max(1, page − 1)` and stays within 1..totalPages |
| History.HistoryPage.NextPage | src/pages/transaction/TransactionHistory.js:447-453 | the page becomes `min(totalPages, page + 1)` and stays within 1..totalPages |
| History.ShownRows | src/pages/transaction/TransactionHistory.js:217-219 | the rows shown are at most 10, not empty when anything is listed, and each is a loaded transaction passing every set filter |
| UpdateTxn.CanUpdate | src/pages/transaction/UpdateTransaction.js:187 | an edit is possible exactly for PENDING and IN_PROGRESS |
| UpdateTxn.InitialForm | src/pages/transaction/UpdateTransaction.js:60-64 | the form starts with the customer id or `''`, the payment method or `CASH`, and the transaction payment's amount or 0 |
| UpdateTxn.SaveCheck | src/pages/transaction/UpdateTransaction.js:112-128 | a blank (trimmed) customer id stops silently; for an installment, a negative amount or one above the total is refused with its message; any other payment status is not checked |
| UpdateTxn.CumulativeAmount | src/pages/transaction/UpdateTransaction.js:137 | the amount sent is the entered amount plus the amount already paid, `NaN` when the payment has none |
| UpdateTxn.RemainingBalance | src/pages/transaction/UpdateTransaction.js:420 | `max(0, total − paid − entered)`: never negative, and 0 or the difference |
| UpdateTxn.RemainingAfterSave | src/pages/transaction/UpdateTransaction.js:134-420 | the balance shown is the total less the cumulative amount the save sends, clamped at 0 |
| UpdateTxn.InstallmentMayExceedTotal | src/pages/transaction/UpdateTransaction.js:118-138 | with 60 of 100 paid, entering 50 passes the installment check and sends 110, above the total |
| UpdateTxn.UntouchedFormCountsPaidTwice | src/pages/transaction/UpdateTransaction.js:60-137 | saving the form as it was loaded sends twice the amount already paid |
| UpdateTxn.ReadablePaymentMethod | src/pages/transaction/UpdateTransaction.js:288-309 | eight codes get a name; every other code gets `Metode Tidak Diketahui` |
| UpdateTxn.UpdatePage.constructor | src/pages/transaction/UpdateTransaction.js:42-64 | the loaded transaction and payment, and the initial form |
| UpdateTxn.UpdatePage.SetAmount | src/pages/transaction/UpdateTransaction.js:400 | only the entered amount changes |
| UpdateTxn.UpdatePage.Save | src/pages/transaction/UpdateTransaction.js:112-156 | an update is sent exactly when the checks pass and the payment is loaded; a blank customer changes nothing; a refused amount sets its message; a missing payment makes reading its amount fail with a TypeError message; the update carries the cumulative amount; success and failure set their messages; saving ends false |
| Detail.CanCancel | src/pages/transaction/TransactionDetail.js:163 | cancel exactly for a loaded transaction that is neither CANCELLED nor COMPLETED |
| Detail.CanDelete | src/pages/transaction/TransactionDetail.js:164 | delete exactly for a loaded transaction that is CANCELLED or PENDING |
| Detail.Permissions | src/pages/transaction/TransactionDetail.js:163-164 | the table of the four statuses: PENDING both, IN_PROGRESS cancel only, CANCELLED delete only, COMPLETED neither; only PENDING allows both |
| Detail.QuantitySumAppend | src/pages/transaction/TransactionDetail.js:269 | the quantity sum of a list with one more item grows by that item's quantity |
| Detail.QuantityFold | src/pages/transaction/TransactionDetail.js:269 | the `reduce` is `NaN` exactly when some item's quantity is `undefined` |
| Detail.QuantityFoldIsSum | src/pages/transaction/TransactionDetail.js:269 | the `reduce` yields the quantity sum (a `null` quantity adding 0) when no quantity is `undefined`, and `NaN` otherwise |
| Detail.ItemCount | src/pages/transaction/TransactionDetail.js:269 | the item count is the sum of the quantities with `null` as 0, and 0 without items or with an item whose quantity is `undefined` |
| Detail.NullAndUndefinedQuantities | src/pages/transaction/TransactionDetail.js:269 | a `null` quantity leaves the count at the other items' sum, an `undefined` one makes it 0 |
| Detail.KindCount | src/pages/transaction/TransactionDetail.js:274 | the kind count is the number of items, 0 without items |
| Detail.Unpaid | src/pages/transaction/TransactionDetail.js:277-287 | shown exactly for IN_PROGRESS; `NaN` exactly when the total is missing; otherwise the total (a `null` one as 0) less the payment's amount (or 0), not clamped |
| Detail.UnpaidMayBeNegative | src/pages/transaction/TransactionDetail.js:281-284 | an over-paid transaction shows a negative unpaid amount, and one without a total shows `NaN` |
| Detail.LineSubtotal | src/pages/transaction/TransactionDetail.js:342 | the subtotal is price times quantity when both are numbers, and 0 when either is missing, `null` or `undefined` |
| Detail.StatusBadge | src/pages/transaction/TransactionDetail.js:64-97 | a known status uses its own configuration; any other status falls back to the PENDING one |
| Detail.PaymentMethodLabel | src/pages/transaction/TransactionDetail.js:99-108 | the five known codes get their labels; any other code is shown unchanged |
| Lifecycle.EditAgrees | src/pages/transaction/TransactionHistory.js:413-417 | the history table offers edit exactly where the edit page's `canUpdate` (src/pages/transaction/UpdateTransaction.js line 187) allows it |
| Lifecycle.CancelAgrees | src/pages/transaction/TransactionHistory.js:399-406 | a cancel offered in the table is allowed by the detail page's `canCancel` (src/pages/transaction/TransactionDetail.js line 163); the detail page also allows it for a status the table does not know |
| Lifecycle.DeleteDisagrees | src/pages/transaction/TransactionHistory.js:407-412 | every status the detail page's `canDelete` (src/pages/transaction/TransactionDetail.js line 164) may delete has a delete button, but the table also offers delete for IN_PROGRESS and COMPLETED, which the detail page refuses |
| Lifecycle.EditNamesAgreeWithHistory | src/pages/transaction/UpdateTransaction.js:288-309 | the edit page and the history table (src/pages/transaction/TransactionHistory.js lines 186-198) name the eight known codes alike; for any other code the edit page says `Metode Tidak Diketahui` and the table shows the code |
| Lifecycle.DetailNamesAgainstHistory | src/pages/transaction/TransactionDetail.js:99-108 | the detail and history (src/pages/transaction/TransactionHistory.js lines 186-198) tables agree on CASH, CREDIT_CARD and DEBIT_CARD and disagree on TRANSFER, BANK_TRANSFER and INSTALLMENT |
| Lifecycle.BalanceIsClampedUnpaid | src/pages/transaction/UpdateTransaction.js:420 | with the amount field at 0, the edit page's remaining balance is the detail page's unpaid amount (src/pages/transaction/TransactionDetail.js lines 281-284) clamped at 0; without a total the detail page shows `NaN` where the edit page shows 0 |
| Profile.PasswordCheck | src/pages/Profile.js:58-85 | the request may go exactly when all three fields are filled, the new passwords match, the new one has at least 6 characters, a token is stored and the profile has an email; each of the five messages is given exactly when the checks before it pass and its own check fails |
| Profile.ErrorText | src/pages/Profile.js:107-127 | 400: the server's message or `Invalid request data`; 401: authentication failed; 403: old password incorrect; other statuses: the server's message or `Server error occurred`; no response: the network message; anything else: `Failed to change password` |
| Profile.Toggle | src/pages/Profile.js:133-138 | only the chosen flag flips |
| Profile.ToggleInvolution | src/pages/Profile.js:133-138 | toggling a flag twice restores the record, and toggles of two flags commute |
| Profile.RoleDisplayName | src/pages/Profile.js:140-149 | ADMIN is shown as `Administrator`, KASIR as `Kasir`, any other role unchanged |
| Profile.RoleDisplayNamesDistinct | src/pages/Profile.js:140-149 | two roles are shown alike only when one is a role code and the other is literally its display name |
| Profile.ProfilePage.constructor | src/pages/Profile.js:7-25 | the form closed and empty, all passwords hidden, no message |
| Profile.ProfilePage.SetPasswordForm | src/pages/Profile.js:286-332 | only the password form changes |
| Profile.ProfilePage.TogglePasswordVisibility | src/pages/Profile.js:133-138 | only the chosen visibility flag flips |
| Profile.ProfilePage.ChangePassword | src/pages/Profile.js:53-131 | no request exactly when a check fails, and then its message is shown; the request carries the email, both passwords and the token; on success the form closes and is cleared; on failure the mapped message is shown; `updating` ends false on every path |
| Session.Storage.constructor | src/components/Navbar.js:6-7 | a browser that has not logged in has neither token nor role |
| Session.LoginPage.constructor | src/pages/Login.js:8 | the login page starts without an error message |
| Session.LoginRedirect | src/pages/Login.js:20-24 | ADMIN goes to `/admin-dashboard`, KASIR to `/kasir-dashboard`, any other role nowhere |
| Session.LoginPage.HandleLogin | src/pages/Login.js:11-28 | on success the stored token and role are the response's and the page navigates by role; on failure the error is set and storage is untouched |
| Session.Logout | src/components/Navbar.js:9-13 | both entries are removed and the bar goes to `/login` |
| Session.Menu | src/components/Navbar.js:18-49 | Home always first; Login and Register exactly without a token; Create New User exactly with a token and ADMIN; Logout exactly with a token and ADMIN or KASIR; only Home for any other role |
| Session.LinkTarget | src/components/Navbar.js:19-36 | every item but Logout is a link, and each link leads to a path of the route table |
| Session.Guard | src/components/ProtectedRoute.js:5-14 | the children render exactly when the stored role is allowed; otherwise a redirect to `/login` that replaces the history entry and passes the location; only the role is read |
| Session.StripTrailingSlashes | src/App.js:18-51 | the path less its trailing slashes is a prefix of it, followed in it only by slashes, keeps at least one character and ends in a slash only when it is `/` |
| Session.RouteKeysCanonical | src/App.js:20-50 | every route path of the table is non-empty, lower-case and ends in a slash only when it is `/` |
| Session.MatchesIffCanonical | src/App.js:18-51 | a path matches a route path case-insensitively up to trailing slashes exactly when lowering the path without its trailing slashes gives the route path |
| Session.Route | src/App.js:18-51 | the route found matches the path under React Router's default matching (case-insensitive, any number of trailing slashes); when none is found, no route of the table matches |
| Session.RouteOfKey | src/App.js:20-50 | each route path as written reaches its own route |
| Session.Visit | src/App.js:18-51 | a path matching no route shows nothing; a path matching a public route renders it; a path matching a guarded route goes through the guard with that route's roles and the path as visited |
| Session.RouteIgnoresCaseAndSlash | src/App.js:18-51 | a path with one more trailing slash, or with its letters lowered, reaches the same route |
| Session.LoginUpToCase | src/App.js:21 | `/LOGIN/` renders the login page |
| Session.AdminDashboardUpToCase | src/App.js:25-32 | `/Admin-Dashboard` reaches the admin guard, which redirects a KASIR to `/login` remembering `/Admin-Dashboard` |
| Session.RootUpToSlashes | src/App.js:20 | `//` renders the landing page |
| Session.NoPrefixMatch | src/App.js:21 | `/login/x` matches no route |
| Session.RouteTable | src/App.js:20-50 | `/`, `/login`, `/register` render for everyone; `/admin-dashboard` and `/create-user` only for ADMIN; `/kasir-dashboard` only for KASIR |
| Session.NoRouteForBothRoles | src/App.js:25-50 | no guarded route admits both ADMIN and KASIR |
| Session.CrossRoleRedirects | src/App.js:25-50 | through the guard (src/components/ProtectedRoute.js lines 9-10), a KASIR on an admin route, or an ADMIN on the kasir dashboard, is redirected to `/login` |
| Session.GuardedRoutesNeedRole | src/components/ProtectedRoute.js:6-10 | with no stored role, every path reaching a guarded route redirects to `/login` remembering that path |
| Session.LoginLandsOnItsDashboard | src/pages/Login.js:20-24 | the dashboard the login goes to renders, under the route table of src/App.js, for the role just stored |
| Session.MenuLinksRender | src/components/Navbar.js:18-48 | every link of the menu leads to a route of src/App.js that renders for the stored role |
| Session.StorageSessionView | src/components/ProtectedRoute.js:6-10 | with consistent storage a guarded page renders only when a token is stored too; with no role stored (after a logout) the bar shows Home, Login and Register and every guarded route redirects |

## Left out

- Network calls: every call to the REST services, and the response shapes, are left out. A method that sends a request receives the answer as a parameter: `Reply`, `Fetched`, `ChangeResult` or the login response. So are the customer-name map of the history page and the customer search of the cart.
- Timers: the 500 ms debounce of the customer search, and the `setTimeout` redirects and message clearing after a success. These are timing behaviour.
- Markup: JSX, styles, icons and the history page's status colours are left out, as is the `disabled` state of buttons. The one exception is the previous/next buttons, which are required to be shown.
- Parsing and formatting: locale formatting, `new Date`, and `parseFloat(value) || 0` on the amount inputs. Amounts arrive as parsed integers and dates as parsed timestamps. Invalid dates are not modelled.
- Strings: `toLowerCase` is modelled on ASCII letters only. Strings are sequences of Unicode scalar values rather than UTF-16 code units, so the hash reads one code per character. Transaction ids are ASCII UUIDs, for which the two agree. The same difference affects the length test of the new password (`Profile.PasswordCheck`): a password with a character outside the Basic Multilingual Plane, such as an emoji, has one more code unit in JavaScript than it has characters in the model, so a 5-character password with one emoji passes the 6-character minimum in the page but not in the model.
- Lookups that fall through to `Object.prototype`: a code such as `constructor` would find an inherited property in the label tables and in `statusConfig`. They are modelled as plain maps.
- Non-integer money: amounts are whole rupiah, so the sum of a numeric string with a number (string concatenation) is not modelled. Neither is `payment.amount === null`, which JavaScript adds as 0.
- Stored values: `localStorage` stores the string `"undefined"` when the login response lacks a field. The model stores the response's strings as given.
- History.SortTransactions: this is an insertion sort driven by the page's comparator, not the engine's `Array.prototype.sort`. The comparator never returns 0, so it is not a consistent comparator, and ECMAScript then leaves the order implementation-defined. The model proves what the page needs from any sort: the result is ordered by the key and is a permutation. The order of ties is not stated.
- History: the cancel and delete requests of `handleTransactionAction` and the detail/edit navigation. These are network calls and routing.
- Detail: the fetch of the transaction and its payment, and the cancel and delete handlers. These are state updates around network calls.
- UpdateTxn: the fetch of the transaction, its customer and its payment, and the fetch's error path. The page is constructed with what they returned.
- Profile: `fetchProfile` on mount. `profile` being `null` when the password is changed is not modelled; it would throw and show `Failed to change password`.
- Profile.ErrorText: states `==>` for the last two kinds of failure rather than `<==>`. A server message may coincide with one of the fixed messages, so the message does not determine the kind of failure.
- Cart.CartPage.UpdateQuantity: requires the id to be selected. Both callers guarantee this: the plus/minus buttons of a selected line and `addProduct` on an already-selected product. With an unselected id the page would add a map entry without a line.
- Routing: paths are matched as React Router does by default, ignoring letter case and trailing slashes, and a path matching no route shows nothing (`NoMatch`). Percent-decoding of the path, a `basename`, and route ranking are not modelled (the table has no parameters or splats, so no path matches two routes). Nested routes, the `state` object's use at `/login`, and the `/manajemen-transaksi` pages registered elsewhere are not part of this model.
- Cart.UpdateQuantityStep: setting a positive quantity for a product that `products` does not hold throws a TypeError in the page (`products.find` gives `undefined`). The model returns `NotInCatalog` and keeps the state the throw leaves behind: lines, form and error message as they were.
- Concurrency: overlapping asynchronous actions (two saves in flight) are not modelled. The page has no coordination for them.

Observations from the proofs, about the code as written:

- Actions differ between pages: the history table offers delete for every status (`Lifecycle.DeleteDisagrees`), while the detail page allows it only for CANCELLED and PENDING.
- The installment check compares the entered amount with the total, not with what is still unpaid (`UpdateTxn.InstallmentMayExceedTotal`).
- The edit form starts with the amount already paid and adds it again on save (`UpdateTxn.UntouchedFormCountsPaidTwice`).
- The detail and history label tables disagree on bank transfers (`Lifecycle.DetailNamesAgainstHistory`).
- The detail page shows a negative unpaid amount for an over-paid transaction, and `Rp NaN` for a transaction without a total (`Detail.UnpaidMayBeNegative`).

The intended behaviour is not evident from the code in any of these cases, so the model keeps the code's behaviour and records the observations as lemmas.
