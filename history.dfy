/** The transaction-history page: the transactions loaded from the service, the
    conjunctive filter over keyword, status, payment method and date range, the
    keyed sort in either direction, ten-per-page pagination, the payment-method
    labels and the actions offered on each row. Dates are already-parsed
    timestamps; a missing `status` or `paymentMethod` is the empty string and a
    missing `totalAmount` is 0. */
module History {
  import opened Base

  /** A transaction as listed by the service. */
  datatype Txn = Txn(
    id: Option<string>,
    customerId: Option<string>,
    status: string,
    paymentMethod: string,
    totalAmount: int,
    createdAt: Option<int>)

  /** The filter inputs of the page; an empty string or `None` is an unset input. */
  datatype Criteria = Criteria(
    keyword: string,
    status: string,
    paymentMethod: string,
    startDate: Option<int>,
    endDate: Option<int>)

  const NO_FILTERS := Criteria("", "", "", None, None)
  const ITEMS_PER_PAGE: int := 10
  const MSG_LOAD_FAILED := "Gagal memuat data transaksi"

  // ----- keyword search -----

  predicate IsPrefix(p: string, s: string) {
    |p| <= |s| && s[..|p|] == p
  }

  /** `s.includes(sub)`: `sub` occurs in `s` at some position. */
  predicate Contains(s: string, sub: string)
    decreases |s|
  {
    IsPrefix(sub, s) || (s != [] && Contains(s[1..], sub))
  }

  /** `sub` is the slice of `s` that starts at offset `k`. */
  predicate OccursAt(s: string, sub: string, k: int) {
    0 <= k && k + |sub| <= |s| && s[k..k + |sub|] == sub
  }

  /** `Contains` holds exactly when `sub` occurs in `s` at some offset. */
  lemma {:induction false} ContainsAt(s: string, sub: string)
    ensures Contains(s, sub) <==> exists k :: OccursAt(s, sub, k)
    decreases |s|
  {
    if IsPrefix(sub, s) {
      assert OccursAt(s, sub, 0);
    } else if s == [] {
    } else {
      ContainsAt(s[1..], sub);
      if Contains(s[1..], sub) {
        var k :| OccursAt(s[1..], sub, k);
        assert s[k + 1..k + 1 + |sub|] == s[1..][k..k + |sub|];
        assert OccursAt(s, sub, k + 1);
      }
      if exists k :: OccursAt(s, sub, k) {
        var k :| OccursAt(s, sub, k);
        assert k != 0;
        assert s[1..][k - 1..k - 1 + |sub|] == s[k..k + |sub|];
        assert OccursAt(s[1..], sub, k - 1);
      }
    }
  }

  /** The keyword test: a case-insensitive substring of the id or of the
      customer id, whichever is present. */
  predicate KeywordMatch(t: Txn, keyword: string) {
    || (t.id.Some? && Contains(Lower(t.id.value), Lower(keyword)))
    || (t.customerId.Some? && Contains(Lower(t.customerId.value), Lower(keyword)))
  }

  predicate InRange(date: Option<int>, start: int, end: int) {
    date.Some? && start <= date.value <= end
  }

  /** The keyword filter: no keyword lets everything through, and a
      transaction is found by its own id in any letter case. */
  predicate KeywordPass(t: Txn, c: Criteria): (r: bool)
    ensures c.keyword == "" ==> r
    ensures t.id.Some? && Lower(c.keyword) == Lower(t.id.value) ==> r
  {
    c.keyword != "" ==> KeywordMatch(t, c.keyword)
  }

  /** The status filter: off when empty, otherwise exactly that status. */
  predicate StatusPass(t: Txn, c: Criteria): (r: bool)
    ensures c.status == "" || t.status == c.status ==> r
    ensures r && c.status != "" ==> t.status == c.status
  {
    c.status != "" ==> t.status == c.status
  }

  /** The payment-method filter: off when empty, otherwise exactly that method. */
  predicate MethodPass(t: Txn, c: Criteria): (r: bool)
    ensures c.paymentMethod == "" || t.paymentMethod == c.paymentMethod ==> r
    ensures r && c.paymentMethod != "" ==> t.paymentMethod == c.paymentMethod
  {
    c.paymentMethod != "" ==> t.paymentMethod == c.paymentMethod
  }

  /** The date range applies only when both ends are set, inclusive at both
      ends; it drops an undated transaction, and an inverted range drops all. */
  predicate DatePass(t: Txn, c: Criteria): (r: bool)
    ensures c.startDate.None? || c.endDate.None? ==> r
    ensures r && c.startDate.Some? && c.endDate.Some? ==>
      t.createdAt.Some? && c.startDate.value <= t.createdAt.value <= c.endDate.value
    ensures c.startDate.Some? && c.endDate.Some? && c.startDate.value > c.endDate.value ==> !r
  {
    c.startDate.Some? && c.endDate.Some? ==> InRange(t.createdAt, c.startDate.value, c.endDate.value)
  }

  /** What a transaction must satisfy to be listed: every filter that is set.
      With no filter set every transaction passes. */
  predicate Matches(t: Txn, c: Criteria): (r: bool)
    ensures c.keyword == "" && c.status == "" && c.paymentMethod == "" && c.startDate.None? ==> r
  {
    KeywordPass(t, c) && StatusPass(t, c) && MethodPass(t, c) && DatePass(t, c)
  }

  /** `filtered.filter(keep)`: each transaction keeps its number of occurrences
      if it passes and disappears otherwise. */
  function Keep(ts: seq<Txn>, keep: Txn -> bool): (r: seq<Txn>)
    ensures forall t :: multiset(r)[t] == if keep(t) then multiset(ts)[t] else 0
    ensures |r| <= |ts|
  {
    if ts == [] then []
    else
      assert ts == [ts[0]] + ts[1..];
      if keep(ts[0]) then [ts[0]] + Keep(ts[1..], keep) else Keep(ts[1..], keep)
  }

  /** The filter part of `applyFilters`: `filtered` starts as a copy of the
      transactions and each filter that is set narrows it in turn. */
  method FilterTransactions(ts: seq<Txn>, c: Criteria) returns (filtered: seq<Txn>)
    ensures forall t :: multiset(filtered)[t] == if Matches(t, c) then multiset(ts)[t] else 0
  {
    filtered := ts;
    if c.keyword != "" {
      filtered := Keep(filtered, (t: Txn) => KeywordMatch(t, c.keyword));
    }
    ghost var afterKeyword := filtered;
    assert forall t :: multiset(afterKeyword)[t] == if KeywordPass(t, c) then multiset(ts)[t] else 0;
    if c.status != "" {
      filtered := Keep(filtered, (t: Txn) => t.status == c.status);
    }
    ghost var afterStatus := filtered;
    assert forall t :: multiset(afterStatus)[t] == if StatusPass(t, c) then multiset(afterKeyword)[t] else 0;
    if c.paymentMethod != "" {
      filtered := Keep(filtered, (t: Txn) => t.paymentMethod == c.paymentMethod);
    }
    ghost var afterMethod := filtered;
    assert forall t :: multiset(afterMethod)[t] == if MethodPass(t, c) then multiset(afterStatus)[t] else 0;
    if c.startDate.Some? && c.endDate.Some? {
      var start, end := c.startDate.value, c.endDate.value;
      filtered := Keep(filtered, (t: Txn) => InRange(t.createdAt, start, end));
    }
    assert forall t :: multiset(filtered)[t] == if DatePass(t, c) then multiset(afterMethod)[t] else 0;
  }

  // ----- sorting -----

  /** A sort value: `totalAmount || 0` and the `createdAt` date are numbers,
      `status || ''` is a string. */
  datatype Key = Num(n: int) | Text(s: string)

  /** `a < b` on strings: code-unit lexicographic order, a proper prefix first. */
  predicate TextLess(a: string, b: string) {
    if a == [] then b != []
    else if b == [] then false
    else if a[0] != b[0] then a[0] < b[0]
    else TextLess(a[1..], b[1..])
  }

  lemma {:induction false} TextLessAsymmetric(a: string, b: string)
    ensures !(TextLess(a, b) && TextLess(b, a))
  {
    if a != [] && b != [] && a[0] == b[0] {
      TextLessAsymmetric(a[1..], b[1..]);
    }
  }

  lemma {:induction false} TextLessTotal(a: string, b: string)
    ensures a == b || TextLess(a, b) || TextLess(b, a)
  {
    if a != [] && b != [] && a[0] == b[0] {
      TextLessTotal(a[1..], b[1..]);
      assert a == [a[0]] + a[1..] && b == [b[0]] + b[1..];
    }
  }

  lemma {:induction false} TextLessTransitive(a: string, b: string, c: string)
    requires TextLess(a, b) && TextLess(b, c)
    ensures TextLess(a, c)
  {
    if a != [] && a[0] == b[0] && b[0] == c[0] {
      TextLessTransitive(a[1..], b[1..], c[1..]);
    }
  }

  /** JavaScript's `a > b` on two sort values of the same kind. */
  predicate Greater(a: Key, b: Key) {
    match (a, b)
    case (Num(x), Num(y)) => x > y
    case (Text(x), Text(y)) => TextLess(y, x)
    case _ => false
  }

  /** The value the comparator reads for `sortBy`; `createdAt` and any other
      field name sort by date, a missing date counting as 0. */
  function SortKey(t: Txn, sortBy: string): (r: Key)
    ensures r.Text? <==> sortBy == "status"
    ensures r.Text? ==> r.s == t.status
    ensures r.Num? && sortBy != "totalAmount" ==> r.n == t.createdAt.GetOr(0)
  {
    if sortBy == "totalAmount" then Num(t.totalAmount)
    else if sortBy == "status" then Text(t.status)
    else Num(t.createdAt.GetOr(0))
  }

  /** The comparator passed to `sort`: 1 puts `a` after `b`, -1 before it;
      it gives 1 exactly when `a` may not precede `b`. */
  function Compare(a: Txn, b: Txn, sortBy: string, sortDirection: string): (r: int)
    ensures r == 1 || r == -1
    ensures r > 0 <==> !InOrder(a, b, sortBy, sortDirection)
  {
    if sortDirection == "desc" then
      (if Greater(SortKey(b, sortBy), SortKey(a, sortBy)) then 1 else -1)
    else
      (if Greater(SortKey(a, sortBy), SortKey(b, sortBy)) then 1 else -1)
  }

  /** `a` may be listed before `b`: its key is not smaller (`desc`) or not
      larger (any other direction) than that of `b`. */
  predicate InOrder(a: Txn, b: Txn, sortBy: string, sortDirection: string) {
    if sortDirection == "desc" then !Greater(SortKey(b, sortBy), SortKey(a, sortBy))
    else !Greater(SortKey(a, sortBy), SortKey(b, sortBy))
  }

  predicate Sorted(s: seq<Txn>, sortBy: string, sortDirection: string) {
    forall i, j :: 0 <= i < j < |s| ==> InOrder(s[i], s[j], sortBy, sortDirection)
  }

  /** The comparator never answers 0: two transactions with the same key each
      come before the other, while for different keys its two answers are
      opposite. */
  lemma CompareHasNoTies(a: Txn, b: Txn, sortBy: string, sortDirection: string)
    ensures SortKey(a, sortBy) == SortKey(b, sortBy) ==>
      Compare(a, b, sortBy, sortDirection) == -1 && Compare(b, a, sortBy, sortDirection) == -1
    ensures SortKey(a, sortBy) != SortKey(b, sortBy) ==>
      Compare(a, b, sortBy, sortDirection) == -Compare(b, a, sortBy, sortDirection)
  {
    var ka, kb := SortKey(a, sortBy), SortKey(b, sortBy);
    if ka.Text? {
      TextLessAsymmetric(ka.s, kb.s);
      TextLessTotal(ka.s, kb.s);
    }
  }

  /** Of any two transactions, one may precede the other. */
  lemma InOrderTotal(a: Txn, b: Txn, sortBy: string, sortDirection: string)
    ensures InOrder(a, b, sortBy, sortDirection) || InOrder(b, a, sortBy, sortDirection)
  {
    if sortBy != "totalAmount" && sortBy == "status" {
      TextLessAsymmetric(a.status, b.status);
    }
  }

  lemma InOrderTransitive(a: Txn, b: Txn, c: Txn, sortBy: string, sortDirection: string)
    requires InOrder(a, b, sortBy, sortDirection) && InOrder(b, c, sortBy, sortDirection)
    ensures InOrder(a, c, sortBy, sortDirection)
  {
    if sortBy != "totalAmount" && sortBy == "status" {
      var x, y, z := a.status, b.status, c.status;
      TextLessTotal(x, y);
      TextLessTotal(y, z);
      if TextLess(x, y) && TextLess(y, z) {
        TextLessTransitive(x, y, z);
        TextLessAsymmetric(x, z);
      }
      if TextLess(y, x) && TextLess(z, y) {
        TextLessTransitive(z, y, x);
        TextLessAsymmetric(x, z);
      }
    }
  }

  /** The first `n` elements of `s` are in order. */
  ghost predicate SortedPrefix(s: seq<Txn>, n: int, sortBy: string, sortDirection: string) {
    n <= |s| && forall p, q :: 0 <= p < q < n ==> InOrder(s[p], s[q], sortBy, sortDirection)
  }

  /** Half-way through inserting `s[i]`; it has reached position `j`: apart
      from `s[j]` the prefix `s[..i + 1]` is in order, and `s[j]` may precede
      everything after it up to `i`. */
  ghost predicate Inserting(s: seq<Txn>, i: int, j: int, sortBy: string, sortDirection: string) {
    && 0 <= j <= i < |s|
    && (forall p, q :: 0 <= p < q <= i && p != j && q != j ==> InOrder(s[p], s[q], sortBy, sortDirection))
    && (forall q :: j < q <= i ==> InOrder(s[j], s[q], sortBy, sortDirection))
  }

  /** Swapping `s[j]` with a left neighbour that may not precede it moves the
      insertion one place left. */
  lemma SwapStep(s: seq<Txn>, i: int, j: int, sortBy: string, sortDirection: string)
    requires Inserting(s, i, j, sortBy, sortDirection) && j > 0
    requires !InOrder(s[j - 1], s[j], sortBy, sortDirection)
    ensures Inserting(s[j - 1 := s[j]][j := s[j - 1]], i, j - 1, sortBy, sortDirection)
    ensures s[j - 1 := s[j]][j := s[j - 1]][i + 1..] == s[i + 1..]
    ensures multiset(s[j - 1 := s[j]][j := s[j - 1]]) == multiset(s)
  {
    InOrderTotal(s[j - 1], s[j], sortBy, sortDirection);
  }

  /** The insertion stops at the front or behind a neighbour that may precede it. */
  lemma InsertDone(s: seq<Txn>, i: int, j: int, sortBy: string, sortDirection: string)
    requires Inserting(s, i, j, sortBy, sortDirection)
    requires j == 0 || InOrder(s[j - 1], s[j], sortBy, sortDirection)
    ensures SortedPrefix(s, i + 1, sortBy, sortDirection)
  {
    forall p, q | 0 <= p < q <= i
      ensures InOrder(s[p], s[q], sortBy, sortDirection)
    {
      if q == j && p < j - 1 {
        InOrderTransitive(s[p], s[j - 1], s[j], sortBy, sortDirection);
      }
    }
  }

  /** Moves `a[i]` left while the comparator puts it before its left
      neighbour, so that `a[..i + 1]` is in order when `a[..i]` was. */
  method Insert(a: array<Txn>, i: int, sortBy: string, sortDirection: string)
    requires 0 <= i < a.Length
    requires SortedPrefix(a[..], i, sortBy, sortDirection)
    modifies a
    ensures SortedPrefix(a[..], i + 1, sortBy, sortDirection)
    ensures a[i + 1..] == old(a[i + 1..])
    ensures multiset(a[..]) == multiset(old(a[..]))
  {
    var j := i;
    while j > 0 && Compare(a[j - 1], a[j], sortBy, sortDirection) > 0
      invariant Inserting(a[..], i, j, sortBy, sortDirection)
      invariant a[i + 1..] == old(a[i + 1..])
      invariant multiset(a[..]) == multiset(old(a[..]))
    {
      ghost var s := a[..];
      SwapStep(s, i, j, sortBy, sortDirection);
      a[j - 1], a[j] := a[j], a[j - 1];
      assert a[..] == s[j - 1 := s[j]][j := s[j - 1]];
      j := j - 1;
    }
    InsertDone(a[..], i, j, sortBy, sortDirection);
  }

  /** `filtered.sort(comparator)`, as an insertion sort driven by the comparator. */
  method SortTransactions(a: array<Txn>, sortBy: string, sortDirection: string)
    modifies a
    ensures Sorted(a[..], sortBy, sortDirection)
    ensures multiset(a[..]) == multiset(old(a[..]))
  {
    for i := 0 to a.Length
      invariant SortedPrefix(a[..], i, sortBy, sortDirection)
      invariant multiset(a[..]) == multiset(old(a[..]))
    {
      Insert(a, i, sortBy, sortDirection);
    }
  }

  /** The list the page shows for `ts` under criteria `c`: exactly the matching
      transactions, each as often as in `ts`, in sort order. */
  ghost predicate Listed(ts: seq<Txn>, c: Criteria, sortBy: string, sortDirection: string, shown: seq<Txn>) {
    && (forall t :: multiset(shown)[t] == if Matches(t, c) then multiset(ts)[t] else 0)
    && Sorted(shown, sortBy, sortDirection)
  }

  /** A listed transaction comes from the loaded ones and passes every set
      filter, and every loaded transaction that passes them is listed. */
  lemma ListedMembers(ts: seq<Txn>, c: Criteria, sortBy: string, sortDirection: string, shown: seq<Txn>, t: Txn)
    requires Listed(ts, c, sortBy, sortDirection, shown)
    ensures t in shown <==> t in ts && Matches(t, c)
  {
    assert multiset(shown)[t] == if Matches(t, c) then multiset(ts)[t] else 0;
  }

  // ----- pagination -----

  /** `Math.ceil(n / itemsPerPage)`. */
  function TotalPages(n: nat): (r: nat)
    ensures r * ITEMS_PER_PAGE >= n
    ensures r > 0 ==> (r - 1) * ITEMS_PER_PAGE < n
    ensures r == 0 <==> n == 0
  {
    (n + ITEMS_PER_PAGE - 1) / ITEMS_PER_PAGE
  }

  /** `s.slice(from, to)` for `0 <= from`: both ends are clamped to the length. */
  function Slice<T>(s: seq<T>, from: nat, to: nat): (r: seq<T>)
    ensures |r| == if from < Min(to, |s|) then Min(to, |s|) - from else 0
    ensures forall i :: 0 <= i < |r| ==> r[i] == s[from + i]
  {
    var end := Min(to, |s|);
    if from < end then s[from..end] else []
  }

  /** The rows of page `p`: `filtered.slice((p - 1) * 10, p * 10)`. */
  function PageItems<T>(s: seq<T>, p: int): (r: seq<T>)
    requires p >= 1
    ensures |r| <= ITEMS_PER_PAGE
    ensures forall i :: 0 <= i < |r| ==> (p - 1) * ITEMS_PER_PAGE + i < |s| && r[i] == s[(p - 1) * ITEMS_PER_PAGE + i]
    ensures p <= TotalPages(|s|) ==> r != []
    ensures p < TotalPages(|s|) ==> |r| == ITEMS_PER_PAGE
    ensures p > TotalPages(|s|) ==> r == []
  {
    Slice(s, (p - 1) * ITEMS_PER_PAGE, p * ITEMS_PER_PAGE)
  }

  /** Pages 1 to `k` one after the other. */
  function PagesUpTo<T>(s: seq<T>, k: nat): seq<T> {
    if k == 0 then [] else PagesUpTo(s, k - 1) + PageItems(s, k)
  }

  /** The first `k` pages are the first `k * 10` rows. */
  lemma {:induction false} PagesUpToPrefix<T>(s: seq<T>, k: nat)
    ensures PagesUpTo(s, k) == s[..Min(k * ITEMS_PER_PAGE, |s|)]
  {
    if k > 0 {
      PagesUpToPrefix(s, k - 1);
      var lo, hi := Min((k - 1) * ITEMS_PER_PAGE, |s|), Min(k * ITEMS_PER_PAGE, |s|);
      var page := PageItems(s, k);
      assert page == s[lo..hi] by {
        assert |page| == hi - lo;
      }
      assert s[..lo] + s[lo..hi] == s[..hi];
    }
  }

  /** Paging through all pages shows every row once, in order. */
  lemma AllPages<T>(s: seq<T>)
    ensures PagesUpTo(s, TotalPages(|s|)) == s
  {
    PagesUpToPrefix(s, TotalPages(|s|));
    assert s[..|s|] == s;
  }

  // ----- labels and row actions -----

  /** The label table of `getPaymentMethodLabel`. */
  const METHOD_LABELS: map<string, string> := map[
    "CASH" := "Tunai",
    "CREDIT_CARD" := "Kartu Kredit",
    "DEBIT_CARD" := "Kartu Debit",
    "BANK_TRANSFER" := "Transfer Bank",
    "OVO" := "OVO",
    "GOPAY" := "GoPay",
    "DANA" := "DANA",
    "OTHER" := "Lainnya"]

  /** `labels[method] || method`. */
  function PaymentMethodLabel(code: string): (r: string)
    ensures code in METHOD_LABELS ==> r == METHOD_LABELS[code] && r != ""
    ensures code !in METHOD_LABELS ==> r == code
  {
    if code in METHOD_LABELS && METHOD_LABELS[code] != "" then METHOD_LABELS[code] else code
  }

  /** The eight known codes and nothing else have a label of their own. */
  lemma KnownMethods()
    ensures METHOD_LABELS.Keys ==
      {"CASH", "CREDIT_CARD", "DEBIT_CARD", "BANK_TRANSFER", "OVO", "GOPAY", "DANA", "OTHER"}
    ensures PaymentMethodLabel("BANK_TRANSFER") == "Transfer Bank"
    ensures PaymentMethodLabel("TRANSFER") == "TRANSFER"
  {
  }

  /** The buttons of a row of the table. */
  datatype Actions = Actions(detail: bool, cancel: bool, delete: bool, edit: bool)

  /** Cancel and edit only for PENDING and IN_PROGRESS; detail and delete always. */
  function RowActions(status: string): (r: Actions)
    ensures r.detail && r.delete
    ensures r.cancel == r.edit
    ensures r.cancel <==> status == PENDING || status == IN_PROGRESS
  {
    var open := status == PENDING || status == IN_PROGRESS;
    Actions(true, open, true, open)
  }

  // ----- page state -----

  /** The result of `fetchTransactions`: the list, or the failure's message. */
  datatype Fetched = Loaded(transactions: seq<Txn>) | Failed(message: string)

  class HistoryPage {
    var transactions: seq<Txn>
    var filteredTransactions: seq<Txn>
    var criteria: Criteria
    var sortBy: string
    var sortDirection: string
    var currentPage: int
    var errorMessage: string

    /** The list shown is the filtered, sorted list of the loaded transactions,
        and the current page is 1 or one of its pages. */
    ghost predicate Valid()
      reads this
    {
      && Listed(transactions, criteria, sortBy, sortDirection, filteredTransactions)
      && 1 <= currentPage
      && (currentPage == 1 || currentPage <= TotalPages(|filteredTransactions|))
    }

    constructor ()
      ensures Valid()
      ensures transactions == [] && filteredTransactions == [] && criteria == NO_FILTERS
      ensures sortBy == "createdAt" && sortDirection == "desc" && currentPage == 1 && errorMessage == ""
    {
      transactions := [];
      filteredTransactions := [];
      criteria := NO_FILTERS;
      sortBy := "createdAt";
      sortDirection := "desc";
      currentPage := 1;
      errorMessage := "";
    }

    /** `applyFilters`: each set filter narrows the list in turn, the copy is
        sorted in place, and the first page is shown. */
    method ApplyFilters()
      modifies this
      ensures Valid()
      ensures Listed(transactions, criteria, sortBy, sortDirection, filteredTransactions)
      ensures currentPage == 1
      ensures transactions == old(transactions) && criteria == old(criteria)
      ensures sortBy == old(sortBy) && sortDirection == old(sortDirection) && errorMessage == old(errorMessage)
    {
      var filtered := FilterTransactions(transactions, criteria);
      var a := new Txn[|filtered|](i requires 0 <= i < |filtered| => filtered[i]);
      assert a[..] == filtered;
      SortTransactions(a, sortBy, sortDirection);
      filteredTransactions := a[..];
      currentPage := 1;
    }

    /** `fetchTransactions`, with the service's answer given: the list is
        stored (empty after a failure) and the filter effect runs on it. */
    method Fetch(result: Fetched)
      modifies this
      ensures Valid()
      ensures transactions == (if result.Loaded? then result.transactions else [])
      ensures errorMessage == match result
        case Loaded(_) => ""
        case Failed(message) => if message != "" then message else MSG_LOAD_FAILED
      ensures criteria == old(criteria) && sortBy == old(sortBy) && sortDirection == old(sortDirection)
      ensures currentPage == 1
    {
      errorMessage := "";
      match result {
        case Loaded(ts) =>
          transactions := ts;
          filteredTransactions := ts;
        case Failed(message) =>
          errorMessage := if message != "" then message else MSG_LOAD_FAILED;
          transactions := [];
          filteredTransactions := [];
      }
      ApplyFilters();
    }

    /** Changing the filter inputs; the filter effect runs when any of them changed. */
    method SetCriteria(c: Criteria)
      requires Valid()
      modifies this
      ensures Valid()
      ensures criteria == c
      ensures transactions == old(transactions) && sortBy == old(sortBy) && sortDirection == old(sortDirection)
      ensures c == old(criteria) ==> filteredTransactions == old(filteredTransactions) && currentPage == old(currentPage)
      ensures c != old(criteria) ==> currentPage == 1
    {
      if c != criteria {
        criteria := c;
        ApplyFilters();
      }
    }

    /** Choosing an entry of the sort menu (`createdAt-desc`, `totalAmount-asc`, ...). */
    method SetSort(field: string, direction: string)
      requires Valid()
      modifies this
      ensures Valid()
      ensures sortBy == field && sortDirection == direction
      ensures transactions == old(transactions) && criteria == old(criteria)
      ensures field == old(sortBy) && direction == old(sortDirection) ==>
        filteredTransactions == old(filteredTransactions) && currentPage == old(currentPage)
      ensures !(field == old(sortBy) && direction == old(sortDirection)) ==> currentPage == 1
    {
      if field != sortBy || direction != sortDirection {
        sortBy, sortDirection := field, direction;
        ApplyFilters();
      }
    }

    /** `clearFilters`: all five filter inputs are emptied; the sort is kept. */
    method ClearFilters()
      requires Valid()
      modifies this
      ensures Valid()
      ensures criteria == NO_FILTERS
      ensures sortBy == old(sortBy) && sortDirection == old(sortDirection) && transactions == old(transactions)
      ensures old(criteria) == NO_FILTERS ==>
        filteredTransactions == old(filteredTransactions) && currentPage == old(currentPage)
      ensures old(criteria) != NO_FILTERS ==> currentPage == 1
    {
      SetCriteria(NO_FILTERS);
    }

    /** The previous-page button, shown only when there is more than one page. */
    method PrevPage()
      requires Valid() && TotalPages(|filteredTransactions|) > 1
      modifies this
      ensures Valid()
      ensures currentPage == Max(1, old(currentPage) - 1)
      ensures 1 <= currentPage <= TotalPages(|filteredTransactions|)
      ensures filteredTransactions == old(filteredTransactions) && transactions == old(transactions)
      ensures criteria == old(criteria) && sortBy == old(sortBy) && sortDirection == old(sortDirection)
    {
      currentPage := Max(1, currentPage - 1);
    }

    /** The next-page button, shown only when there is more than one page. */
    method NextPage()
      requires Valid() && TotalPages(|filteredTransactions|) > 1
      modifies this
      ensures Valid()
      ensures currentPage == Min(TotalPages(|filteredTransactions|), old(currentPage) + 1)
      ensures 1 <= currentPage <= TotalPages(|filteredTransactions|)
      ensures filteredTransactions == old(filteredTransactions) && transactions == old(transactions)
      ensures criteria == old(criteria) && sortBy == old(sortBy) && sortDirection == old(sortDirection)
    {
      currentPage := Min(TotalPages(|filteredTransactions|), currentPage + 1);
    }
  }

  /** Whatever the page state, the rows shown are the current page of the list. */
  lemma ShownRows(page: HistoryPage)
    requires page.Valid()
    ensures var rows := PageItems(page.filteredTransactions, page.currentPage);
      && |rows| <= ITEMS_PER_PAGE
      && (page.filteredTransactions != [] ==> rows != [])
      && forall t :: t in rows ==> t in page.transactions && Matches(t, page.criteria)
  {
    var rows := PageItems(page.filteredTransactions, page.currentPage);
    forall t | t in rows
      ensures t in page.transactions && Matches(t, page.criteria)
    {
      var i :| 0 <= i < |rows| && rows[i] == t;
      assert t in page.filteredTransactions;
      ListedMembers(page.transactions, page.criteria, page.sortBy, page.sortDirection, page.filteredTransactions, t);
    }
  }
}
