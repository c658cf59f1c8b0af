/** The pure parts of the data layer in app/lib/data.ts. The store queries
    themselves are inputs: each is a `Reply` as the client library reports it.
    What is modelled is what the functions do with a reply: the translation of
    every failure into a fixed message, the paid/pending totals of the card
    view, the paging arithmetic, and the flattening of joined invoice rows. */
module Data {
  import opened Outcomes
  import Utils

  // ---------------------------------------------------------------------------
  // Replies and error translation
  // ---------------------------------------------------------------------------

  /** A store call: the awaited promise rejected, or it resolved with an
      optional body (`data` or `count`) and an optional `error`. */
  datatype Reply<T> = Rejected | Resolved(body: Option<T>, error: Option<string>)

  /** The read functions of the data layer. */
  datatype Fetch =
    | FetchRevenue | FetchLatestInvoices | FetchCardData | FetchFilteredInvoices
    | FetchInvoicesPages | FetchInvoiceById | FetchCustomers | FetchFilteredCustomers

  /** The message each function's `catch` throws in place of whatever failed. */
  function FailureMessage(f: Fetch): string {
    match f
    case FetchRevenue => "Failed to fetch revenue data."
    case FetchLatestInvoices => "Failed to fetch the latest invoices."
    case FetchCardData => "Failed to fetch card data."
    case FetchFilteredInvoices => "Failed to fetch invoices."
    case FetchInvoicesPages => "Failed to fetch total number of invoices."
    case FetchInvoiceById => "Failed to fetch invoice."
    case FetchCustomers => "Failed to fetch all customers."
    case FetchFilteredCustomers => "Failed to fetch customer table."
  }

  /** The common shape `const { data, error } = await ...; if (error) throw
      error;` inside a `try` whose `catch` rethrows the fixed message: the body
      when the call succeeded, the message of `f` otherwise. */
  function Checked<T>(f: Fetch, reply: Reply<T>): (r: Result<Option<T>, string>)
    ensures r.Failure? <==> reply.Rejected? || reply.error.Some?
    ensures r.Failure? ==> r.error == FailureMessage(f)
    ensures r.Success? ==> r.value == reply.body
  {
    match reply
    case Rejected => Failure(FailureMessage(f))
    case Resolved(body, error) => if error.Some? then Failure(FailureMessage(f)) else Success(body)
  }

  /** The caller cannot tell store failures apart: a rejected call and any
      two reported errors, whatever their bodies, throw the same message. */
  lemma StoreErrorIsNeverSurfaced<T>(f: Fetch, body1: Option<T>, error1: string,
                                     body2: Option<T>, error2: string)
    ensures Checked(f, Resolved(body1, Some(error1))) == Checked(f, Resolved(body2, Some(error2)))
    ensures Checked(f, Resolved(body1, Some(error1))) == Checked<T>(f, Rejected)
  {
  }

  /** Each function throws its own message, so the message names the function
      that failed. */
  lemma FailureMessagesAreDistinct(f: Fetch, g: Fetch)
    requires f != g
    ensures FailureMessage(f) != FailureMessage(g)
  {
  }

  /** `fetchRevenue()`: the `revenue` rows as the store returned them. */
  function FetchRevenueRows(reply: Reply<seq<Utils.Revenue>>): (r: Result<Option<seq<Utils.Revenue>>, string>)
    ensures reply.Resolved? && reply.error.None? ==> r == Success(reply.body)
    ensures !(reply.Resolved? && reply.error.None?) ==> r == Failure("Failed to fetch revenue data.")
  {
    Checked(FetchRevenue, reply)
  }

  /** The `{ id, name }` rows `fetchCustomers` selects. */
  datatype CustomerField = CustomerField(id: string, name: string)

  /** `fetchCustomers()`: the customer id/name rows as the store returned them. */
  function FetchCustomerFields(reply: Reply<seq<CustomerField>>): (r: Result<Option<seq<CustomerField>>, string>)
    ensures reply.Resolved? && reply.error.None? ==> r == Success(reply.body)
    ensures !(reply.Resolved? && reply.error.None?) ==> r == Failure("Failed to fetch all customers.")
  {
    Checked(FetchCustomers, reply)
  }

  // ---------------------------------------------------------------------------
  // Card totals
  // ---------------------------------------------------------------------------

  /** A `{ status, amount }` row; `status` is the raw text of the column. */
  datatype StatusRow = StatusRow(status: string, amount: int)

  const PaidStatus: string := "paid"
  const PendingStatus: string := "pending"

  /** `rows.reduce((sum, invoice) => invoice.status === status ? sum + invoice.amount : sum, sum)`. */
  function ReduceTotal(rows: seq<StatusRow>, status: string, sum: int): int
    decreases |rows|
  {
    if |rows| == 0 then sum
    else ReduceTotal(rows[1..], status, if rows[0].status == status then sum + rows[0].amount else sum)
  }

  /** Reference definition: the sum of the amounts of the rows whose status is
      exactly `status`. */
  function StatusTotal(rows: seq<StatusRow>, status: string): int {
    if |rows| == 0 then 0
    else StatusTotal(rows[..|rows| - 1], status)
         + (if rows[|rows| - 1].status == status then rows[|rows| - 1].amount else 0)
  }

  /** The sum of all amounts, whatever their status. */
  function AmountSum(rows: seq<StatusRow>): int {
    if |rows| == 0 then 0 else AmountSum(rows[..|rows| - 1]) + rows[|rows| - 1].amount
  }

  lemma {:induction false} StatusTotalAppend(a: seq<StatusRow>, b: seq<StatusRow>, status: string)
    ensures StatusTotal(a + b, status) == StatusTotal(a, status) + StatusTotal(b, status)
    decreases |b|
  {
    if |b| == 0 {
      assert a + b == a;
    } else {
      var b' := b[..|b| - 1];
      assert (a + b)[..|a + b| - 1] == a + b';
      StatusTotalAppend(a, b', status);
    }
  }

  /** The `reduce` of `fetchCardData` (app/lib/data.ts:78-81) computes the
      reference total. */
  lemma {:induction false} ReduceComputesStatusTotal(rows: seq<StatusRow>, status: string, sum: int)
    ensures ReduceTotal(rows, status, sum) == sum + StatusTotal(rows, status)
    decreases |rows|
  {
    if |rows| > 0 {
      var next := if rows[0].status == status then sum + rows[0].amount else sum;
      ReduceComputesStatusTotal(rows[1..], status, next);
      StatusTotalAppend([rows[0]], rows[1..], status);
      assert [rows[0]] + rows[1..] == rows;
      assert StatusTotal([rows[0]], status) == next - sum by {
        assert [rows[0]][..0] == [];
      }
    }
  }

  /** Rows whose status is neither `paid` nor `pending` count towards neither
      total; when every row is one of the two, the totals split the sum of all
      amounts. */
  lemma {:induction false} TotalsSplitAmountSum(rows: seq<StatusRow>)
    requires forall i :: 0 <= i < |rows| ==> rows[i].status == PaidStatus || rows[i].status == PendingStatus
    ensures StatusTotal(rows, PaidStatus) + StatusTotal(rows, PendingStatus) == AmountSum(rows)
  {
    if |rows| > 0 {
      TotalsSplitAmountSum(rows[..|rows| - 1]);
    }
  }

  /** A row with any other status leaves both totals where they were. */
  lemma UnknownStatusCountsNowhere(rows: seq<StatusRow>, other: StatusRow)
    requires other.status != PaidStatus && other.status != PendingStatus
    ensures StatusTotal(rows + [other], PaidStatus) == StatusTotal(rows, PaidStatus)
    ensures StatusTotal(rows + [other], PendingStatus) == StatusTotal(rows, PendingStatus)
  {
    assert (rows + [other])[..|rows|] == rows;
  }

  /** What `fetchCardData` returns, with the two totals still in cents (the
      currency formatting is not modelled). */
  datatype CardData = CardData(numberOfCustomers: nat, numberOfInvoices: nat,
                               totalPaidInvoices: int, totalPendingInvoices: int)

  /** `fetchCardData()`: three calls joined by `Promise.all`. Only a rejected
      call throws; the `error` fields are never read, so a reported store error
      yields zero counts and totals instead of a failure. */
  function FetchCardDataTotals(invoiceCount: Reply<nat>, customerCount: Reply<nat>,
                               invoiceStatus: Reply<seq<StatusRow>>): (r: Result<CardData, string>)
    ensures r.Failure? <==> invoiceCount.Rejected? || customerCount.Rejected? || invoiceStatus.Rejected?
    ensures r.Failure? ==> r.error == "Failed to fetch card data."
    ensures r.Success? ==>
      && r.value.numberOfInvoices == (if invoiceCount.body.Some? then invoiceCount.body.value else 0)
      && r.value.numberOfCustomers == (if customerCount.body.Some? then customerCount.body.value else 0)
      && r.value.totalPaidInvoices
         == (if invoiceStatus.body.Some? then StatusTotal(invoiceStatus.body.value, PaidStatus) else 0)
      && r.value.totalPendingInvoices
         == (if invoiceStatus.body.Some? then StatusTotal(invoiceStatus.body.value, PendingStatus) else 0)
  {
    if invoiceCount.Rejected? || customerCount.Rejected? || invoiceStatus.Rejected? then
      Failure(FailureMessage(FetchCardData))
    else
      Success(CardData(customerCount.body.Coalesce(0), invoiceCount.body.Coalesce(0),
                       OptionalTotal(invoiceStatus.body, PaidStatus),
                       OptionalTotal(invoiceStatus.body, PendingStatus)))
  }

  /** `invoiceStatus?.reduce(...) ?? 0`: the total of one status over the rows,
      or 0 when the store sent no rows. */
  function OptionalTotal(rows: Option<seq<StatusRow>>, status: string): (t: int)
    ensures t == (if rows.Some? then StatusTotal(rows.value, status) else 0)
  {
    match rows
    case None => 0
    case Some(rs) =>
      ReduceComputesStatusTotal(rs, status, 0);
      ReduceTotal(rs, status, 0)
  }

  /** A reported store error changes nothing in the card data. */
  lemma CardDataIgnoresReportedErrors(
    invoiceCount: Option<nat>, customerCount: Option<nat>, invoiceStatus: Option<seq<StatusRow>>,
    e1: Option<string>, e2: Option<string>, e3: Option<string>)
    ensures FetchCardDataTotals(Resolved(invoiceCount, e1), Resolved(customerCount, e2), Resolved(invoiceStatus, e3))
            == FetchCardDataTotals(Resolved(invoiceCount, None), Resolved(customerCount, None), Resolved(invoiceStatus, None))
  {
  }

  // ---------------------------------------------------------------------------
  // Paging
  // ---------------------------------------------------------------------------

  /** `ITEMS_PER_PAGE`. */
  const ItemsPerPage := 6

  /** `.range(from, to)`: both ends inclusive. */
  datatype Range = Range(from: int, to: int)

  /** `(currentPage - 1) * ITEMS_PER_PAGE`. */
  function Offset(currentPage: int): int {
    (currentPage - 1) * ItemsPerPage
  }

  /** The range `fetchFilteredInvoices` asks for:
      `.range(offset, offset + ITEMS_PER_PAGE - 1)`. */
  function PageRange(currentPage: int): (r: Range)
    ensures r.from == Offset(currentPage)
    ensures r.to - r.from + 1 == ItemsPerPage
  {
    var offset := Offset(currentPage);
    Range(offset, offset + ItemsPerPage - 1)
  }

  /** The rows a store returns for an inclusive range of its ordered matches. */
  function Window<T>(matches: seq<T>, r: Range): (w: seq<T>)
    requires 0 <= r.from <= r.to + 1
    ensures |w| <= r.to - r.from + 1
    ensures r.from <= r.to && r.from < |matches| ==> |w| > 0 && w[0] == matches[r.from]
  {
    var lo := if r.from < |matches| then r.from else |matches|;
    var hi := if r.to + 1 < |matches| then r.to + 1 else |matches|;
    if lo <= hi then matches[lo..hi] else []
  }

  /** `Math.ceil((count ?? 0) / ITEMS_PER_PAGE)`: the fewest pages that hold
      every match. */
  function PageCount(count: Option<nat>): (n: nat)
    ensures n * ItemsPerPage >= count.Coalesce(0)
    ensures n > 0 ==> (n - 1) * ItemsPerPage < count.Coalesce(0)
  {
    (count.Coalesce(0) + ItemsPerPage - 1) / ItemsPerPage
  }

  /** Every page up to the count starts inside the matches; the page after it
      starts past them. */
  lemma PagesStartInsideMatches(count: nat, page: int)
    requires count > 0
    ensures 1 <= page <= PageCount(Some(count)) ==> Offset(page) < count
    ensures Offset(PageCount(Some(count)) + 1) >= count
  {
  }

  /** The matching invoice rows of pages 1 to `n`, as `fetchFilteredInvoices`
      hands them back one page after the other. */
  function FirstPages(matches: seq<JoinedInvoice>, n: nat): seq<JoinedInvoice> {
    if n == 0 then [] else FirstPages(matches, n - 1) + Window(matches, PageRange(n))
  }

  /** How many matches the first `n` pages hold. */
  function Covered(count: nat, n: nat): (c: nat)
    ensures c <= count
  {
    if n * ItemsPerPage < count then n * ItemsPerPage else count
  }

  /** Page `n` is the slice between what the pages before it and what the
      pages up to it hold. */
  lemma PageIsSlice(matches: seq<JoinedInvoice>, n: nat)
    requires n > 0
    ensures Covered(|matches|, n - 1) <= Covered(|matches|, n)
    ensures Window(matches, PageRange(n)) == matches[Covered(|matches|, n - 1)..Covered(|matches|, n)]
  {
    var r := PageRange(n);
    assert r.from == (n - 1) * ItemsPerPage;
    assert r.to + 1 == n * ItemsPerPage;
  }

  lemma PrefixThenSlice(s: seq<JoinedInvoice>, a: nat, b: nat)
    requires a <= b <= |s|
    ensures s[..a] + s[a..b] == s[..b]
  {
  }

  lemma {:induction false} FirstPagesArePrefix(matches: seq<JoinedInvoice>, n: nat)
    ensures FirstPages(matches, n) == matches[..Covered(|matches|, n)]
  {
    if n > 0 {
      var a, b := Covered(|matches|, n - 1), Covered(|matches|, n);
      var earlier, page := FirstPages(matches, n - 1), Window(matches, PageRange(n));
      assert FirstPages(matches, n) == earlier + page;
      FirstPagesArePrefix(matches, n - 1);
      PageIsSlice(matches, n);
      PrefixThenSlice(matches, a, b);
      assert earlier + page == matches[..a] + matches[a..b];
    }
  }

  /** Paging through `PageCount` pages hands back every match exactly once, in
      order. */
  lemma PagesCoverEveryMatchOnce(matches: seq<JoinedInvoice>)
    ensures FirstPages(matches, PageCount(Some(|matches|))) == matches
  {
    FirstPagesArePrefix(matches, PageCount(Some(|matches|)));
  }

  /** `fetchInvoicesPages(query)`: the number of pages the matching count
      needs; a missing count gives no pages. */
  function FetchInvoicesPageCount(reply: Reply<nat>): (r: Result<nat, string>)
    ensures r.Failure? <==> reply.Rejected? || reply.error.Some?
    ensures r.Failure? ==> r.error == "Failed to fetch total number of invoices."
    ensures r.Success? ==>
      && r.value * ItemsPerPage >= reply.body.Coalesce(0)
      && (r.value > 0 ==> (r.value - 1) * ItemsPerPage < reply.body.Coalesce(0))
    ensures r.Success? && reply.body.Coalesce(0) == 0 ==> r.value == 0
  {
    match Checked(FetchInvoicesPages, reply)
    case Failure(message) => Failure(message)
    case Success(count) => Success(PageCount(count))
  }

  /** Thirteen matching invoices need three pages. */
  lemma ThirteenMatchesMakeThreePages()
    ensures FetchInvoicesPageCount(Resolved(Some(13), None)) == Success(3)
  {
  }

  // ---------------------------------------------------------------------------
  // Row flattening
  // ---------------------------------------------------------------------------

  /** The nested `customers (name, email, image_url)` object. */
  datatype Customer = Customer(name: string, email: string, imageUrl: string)

  /** A row as the joined query returns it; `customers` is `null` when the
      join found no customer. */
  datatype JoinedInvoice = JoinedInvoice(id: string, amount: int, date: string, status: string,
                                         customers: Option<Customer>)

  /** `{ ...invoice, name, email, image_url }`: every original field plus the
      customer's three fields lifted to the top level. */
  datatype InvoicesTableRow = InvoicesTableRow(id: string, amount: int, date: string, status: string,
                                               customers: Customer,
                                               name: string, email: string, imageUrl: string)

  /** The lifted fields agree with the nested customer they came from. */
  predicate Lifted(row: InvoicesTableRow) {
    row.name == row.customers.name && row.email == row.customers.email && row.imageUrl == row.customers.imageUrl
  }

  /** Forgets the lifted fields, giving back the joined row. */
  function Nested(row: InvoicesTableRow): JoinedInvoice {
    JoinedInvoice(row.id, row.amount, row.date, row.status, Some(row.customers))
  }

  function FlattenRow(invoice: JoinedInvoice): (row: InvoicesTableRow)
    requires invoice.customers.Some?
    ensures Lifted(row) && Nested(row) == invoice
  {
    var c := invoice.customers.value;
    InvoicesTableRow(invoice.id, invoice.amount, invoice.date, invoice.status, c, c.name, c.email, c.imageUrl)
  }

  /** `invoices.map(...)`: `None` when some row has no customer, where reading
      `invoice.customers.name` throws. */
  function FlattenRows(invoices: seq<JoinedInvoice>): (r: Option<seq<InvoicesTableRow>>)
    ensures r.Some? <==> forall i :: 0 <= i < |invoices| ==> invoices[i].customers.Some?
    ensures r.Some? ==>
      && |r.value| == |invoices|
      && forall i :: 0 <= i < |invoices| ==> Lifted(r.value[i]) && Nested(r.value[i]) == invoices[i]
  {
    if forall i :: 0 <= i < |invoices| ==> invoices[i].customers.Some? then
      Some(seq(|invoices|, i requires 0 <= i < |invoices| => FlattenRow(invoices[i])))
    else
      None
  }

  /** `fetchFilteredInvoices(query, currentPage)` once the store has answered
      for `PageRange(currentPage)`: the flattened rows in the order returned.
      A reported error, a missing body and a row without customer all end in
      the same fixed message. */
  function FetchFilteredInvoiceRows(reply: Reply<seq<JoinedInvoice>>): (r: Result<seq<InvoicesTableRow>, string>)
    ensures r.Failure? ==> r.error == "Failed to fetch invoices."
    ensures r.Success? <==>
      && reply.Resolved? && reply.error.None? && reply.body.Some?
      && forall i :: 0 <= i < |reply.body.value| ==> reply.body.value[i].customers.Some?
    ensures r.Success? ==>
      && |r.value| == |reply.body.value|
      && forall i :: 0 <= i < |r.value| ==> Lifted(r.value[i]) && Nested(r.value[i]) == reply.body.value[i]
  {
    match Checked(FetchFilteredInvoices, reply)
    case Failure(message) => Failure(message)
    case Success(body) =>
      if body.None? then Failure(FailureMessage(FetchFilteredInvoices))
      else
        match FlattenRows(body.value)
        case None => Failure(FailureMessage(FetchFilteredInvoices))
        case Some(rows) => Success(rows)
  }

  /** A search that matches nothing gives an empty list, not an error. */
  lemma NoMatchesGiveEmptyList()
    ensures FetchFilteredInvoiceRows(Resolved(Some([]), None)) == Success([])
  {
  }
}
