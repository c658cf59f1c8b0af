/** The invoice server actions of app/lib/actions.ts: form validation by the
    `InvoiceSchema` (without `id` and `date`), and `createInvoice`,
    `updateInvoice`, `deleteInvoice` as transformations of the `invoices`
    table. The cache revalidation and the redirect are emitted as effect
    values; an exception is an `Outcome` that threw and leaves the table as it
    was. */
module Actions {
  import opened Outcomes

  // ---------------------------------------------------------------------------
  // Form validation
  // ---------------------------------------------------------------------------

  /** `formData.get(name)`: `null` when the field is absent, a string, or an
      uploaded file. */
  datatype FormValue = Missing | Text(text: string) | Upload

  /** The three form fields the actions read. */
  datatype InvoiceForm = InvoiceForm(customerId: FormValue, amount: FormValue, status: FormValue)

  /** `z.enum(['pending', 'paid'])`. */
  datatype Status = Pending | Paid

  /** The schema fields `CreateInvoice` and `UpdateInvoice` check. */
  datatype Field = CustomerIdField | AmountField | StatusField

  /** A JavaScript number: NaN, one of the infinities, or a finite value. */
  datatype JsNumber = NaN | PosInfinity | NegInfinity | Num(value: real)

  /** What `parse` hands back on success. */
  datatype ValidInvoice = ValidInvoice(customerId: string, amount: JsNumber, status: Status)

  /** `Number(text)` on form text. The JavaScript string-to-number grammar is
      left abstract. */
  type NumberParser = string -> JsNumber

  /** `z.coerce.number()`'s `Number(value)`: `null` becomes 0 and a file
      becomes NaN. */
  function CoerceNumber(toNumber: NumberParser, v: FormValue): JsNumber {
    match v
    case Missing => Num(0.0)
    case Upload => NaN
    case Text(s) => toNumber(s)
  }

  function ParseStatus(v: FormValue): Option<Status> {
    match v
    case Text(s) => if s == "pending" then Some(Pending) else if s == "paid" then Some(Paid) else None
    case _ => None
  }

  /** `customerId: z.string()` — any string, the empty one included. */
  predicate CustomerIdOk(v: FormValue) {
    v.Text?
  }

  /** `amount: z.coerce.number().gt(0)` with zod 3: `z.number()` refuses NaN
      but lets the infinities through, and `+Infinity` is above 0. */
  predicate AmountOk(toNumber: NumberParser, v: FormValue) {
    var n := CoerceNumber(toNumber, v);
    n.PosInfinity? || (n.Num? && n.value > 0.0)
  }

  predicate StatusOk(v: FormValue) {
    ParseStatus(v).Some?
  }

  /** The fields that fail their check, in schema order; `parse` reports every
      failing field, not only the first. */
  function Issues(toNumber: NumberParser, form: InvoiceForm): seq<Field> {
    (if CustomerIdOk(form.customerId) then [] else [CustomerIdField])
    + (if AmountOk(toNumber, form.amount) then [] else [AmountField])
    + (if StatusOk(form.status) then [] else [StatusField])
  }

  /** `CreateInvoice.parse(...)` and `UpdateInvoice.parse(...)`: the validated
      record, or the list of failing fields the thrown `ZodError` carries. */
  function Validate(toNumber: NumberParser, form: InvoiceForm): (r: Result<ValidInvoice, seq<Field>>)
    ensures r.Success? <==>
      && form.customerId.Text?
      && (CoerceNumber(toNumber, form.amount) == PosInfinity
          || exists x :: CoerceNumber(toNumber, form.amount) == Num(x) && x > 0.0)
      && (form.status == Text("pending") || form.status == Text("paid"))
    ensures r.Success? ==>
      && r.value.customerId == form.customerId.text
      && CoerceNumber(toNumber, form.amount) == r.value.amount
      && (r.value.amount.Num? ==> r.value.amount.value > 0.0)
      && !r.value.amount.NaN? && !r.value.amount.NegInfinity?
      && (r.value.status == Pending <==> form.status == Text("pending"))
    ensures r.Failure? ==>
      && |r.error| > 0
      && (CustomerIdField in r.error <==> !form.customerId.Text?)
      && (AmountField in r.error <==> !AmountOk(toNumber, form.amount))
      && (StatusField in r.error <==> !(form.status == Text("pending") || form.status == Text("paid")))
  {
    var issues := Issues(toNumber, form);
    if issues == [] then
      Success(ValidInvoice(form.customerId.text, CoerceNumber(toNumber, form.amount),
                           ParseStatus(form.status).value))
    else
      Failure(issues)
  }

  // ---------------------------------------------------------------------------
  // The invoices table and the actions
  // ---------------------------------------------------------------------------

  /** A row of `invoices`; `amount` is the `INT` column, in cents, and `date`
      is `YYYY-MM-DD`. */
  datatype Invoice = Invoice(customerId: string, amount: int, status: Status, date: string)

  type InvoiceId = string

  /** The `invoices` table, keyed by id. */
  type Table = map<InvoiceId, Invoice>

  /** The list page that every action invalidates. */
  const InvoicesPath: string := "/dashboard/invoices"

  /** `revalidatePath(path)` and `redirect(path)`. */
  datatype Effect = Revalidate(path: string) | Redirect(path: string)

  /** Why an action threw: `parse` rejected the form, or the SQL statement
      failed in the store. */
  datatype ActionError = ValidationFailed(issues: seq<Field>) | StoreFailed

  /** An action either runs to its end, leaving a table and the effects it
      emitted, or throws, leaving `table` as it was before the call. */
  datatype Outcome = Finished(table: Table, effects: seq<Effect>) | Threw(error: ActionError, table: Table)

  /** The range of the `INT` (32-bit) `amount` column. */
  const MinInt4 := -0x8000_0000
  const MaxInt4 := 0x7fff_ffff

  predicate IsWhole(x: real) {
    x.Floor as real == x
  }

  /** What the `INT` column stores for the parameter `amount * 100`, which is
      sent as text: the column's integer input refuses `Infinity`, `NaN`, a
      fractional value and a value outside 32 bits, and the statement fails. */
  function StoredCents(amount: JsNumber): (c: Option<int>)
    ensures c.Some? <==>
      && amount.Num? && IsWhole(amount.value * 100.0)
      && MinInt4 as real <= amount.value * 100.0 <= MaxInt4 as real
    ensures c.Some? ==> c.value as real / 100.0 == amount.value && MinInt4 <= c.value <= MaxInt4
  {
    if amount.Num? && IsWhole(amount.value * 100.0)
       && MinInt4 as real <= amount.value * 100.0 <= MaxInt4 as real
    then Some((amount.value * 100.0).Floor)
    else None
  }

  /** `timestamp.split('T')[0]`: everything before the first `T`. */
  function DatePart(timestamp: string): (date: string)
    ensures date <= timestamp
    ensures 'T' !in date
    ensures |date| < |timestamp| ==> timestamp[|date|] == 'T'
  {
    if |timestamp| == 0 || timestamp[0] == 'T' then []
    else [timestamp[0]] + DatePart(timestamp[1..])
  }

  /** What create and update emit once the statement has run. */
  const RevalidateAndRedirect: seq<Effect> := [Revalidate(InvoicesPath), Redirect(InvoicesPath)]

  /** `createInvoice(formData)`. The clock reading `now` (an ISO timestamp),
      the id the store assigns and whether the store accepts the INSERT are
      inputs; an id already in use, or an amount the `INT` column refuses,
      makes the INSERT fail. */
  function CreateInvoice(toNumber: NumberParser, form: InvoiceForm, now: string,
                         newId: InvoiceId, storeAccepts: bool, table: Table): (r: Outcome)
    ensures r.Threw? ==> r.table == table
    ensures !Validate(toNumber, form).Success? ==>
      r.Threw? && r.error == ValidationFailed(Validate(toNumber, form).error)
    ensures Validate(toNumber, form).Success? && r.Threw? ==> r.error == StoreFailed
    ensures r.Finished? <==>
      && Validate(toNumber, form).Success? && storeAccepts && newId !in table
      && StoredCents(CoerceNumber(toNumber, form.amount)).Some?
    ensures r.Finished? ==>
      && r.table.Keys == table.Keys + {newId}
      && |r.table| == |table| + 1
      && (forall k :: k in table ==> r.table[k] == table[k])
      && r.table[newId].customerId == form.customerId.text
      && CoerceNumber(toNumber, form.amount) == Num(r.table[newId].amount as real / 100.0)
      && (r.table[newId].status == Paid <==> form.status == Text("paid"))
      && r.table[newId].date <= now && 'T' !in r.table[newId].date
      && (|r.table[newId].date| < |now| ==> now[|r.table[newId].date|] == 'T')
      && r.effects == [Revalidate(InvoicesPath), Redirect(InvoicesPath)]
  {
    match Validate(toNumber, form)
    case Failure(issues) => Threw(ValidationFailed(issues), table)
    case Success(v) =>
      match StoredCents(v.amount)
      case None => Threw(StoreFailed, table)
      case Some(cents) =>
        if !storeAccepts || newId in table then Threw(StoreFailed, table)
        else Finished(InsertRow(table, newId, v, cents, now), RevalidateAndRedirect)
  }

  /** The INSERT itself: one new row under a fresh id, with the stored cents,
      dated by the clock reading. */
  function InsertRow(table: Table, newId: InvoiceId, v: ValidInvoice, cents: int, now: string): (t: Table)
    requires newId !in table
    ensures t.Keys == table.Keys + {newId}
    ensures |t| == |table| + 1
    ensures forall k :: k in table ==> t[k] == table[k]
    ensures t[newId].customerId == v.customerId && t[newId].status == v.status
    ensures t[newId].amount == cents
    ensures t[newId].date <= now && 'T' !in t[newId].date
    ensures |t[newId].date| < |now| ==> now[|t[newId].date|] == 'T'
  {
    var row := Invoice(v.customerId, cents, v.status, DatePart(now));
    var t := table[newId := row];
    assert t.Keys == table.Keys + {newId};
    t
  }

  /** `updateInvoice(id, formData)`. `UPDATE ... WHERE id = ...` on an id that
      is not in the table changes no row and does not fail; an amount the
      `INT` column refuses fails the statement whatever the id. */
  function UpdateInvoice(toNumber: NumberParser, id: InvoiceId, form: InvoiceForm,
                         storeAccepts: bool, table: Table): (r: Outcome)
    ensures r.Threw? ==> r.table == table
    ensures !Validate(toNumber, form).Success? ==>
      r.Threw? && r.error == ValidationFailed(Validate(toNumber, form).error)
    ensures Validate(toNumber, form).Success? && r.Threw? ==> r.error == StoreFailed
    ensures r.Finished? <==>
      && Validate(toNumber, form).Success? && storeAccepts
      && StoredCents(CoerceNumber(toNumber, form.amount)).Some?
    ensures r.Finished? ==>
      && r.table.Keys == table.Keys
      && (forall k :: k in table && k != id ==> r.table[k] == table[k])
      && (id in table ==>
            && r.table[id].customerId == form.customerId.text
            && CoerceNumber(toNumber, form.amount) == Num(r.table[id].amount as real / 100.0)
            && (r.table[id].status == Paid <==> form.status == Text("paid"))
            && r.table[id].date == table[id].date)
      && r.effects == [Revalidate(InvoicesPath), Redirect(InvoicesPath)]
  {
    match Validate(toNumber, form)
    case Failure(issues) => Threw(ValidationFailed(issues), table)
    case Success(v) =>
      match StoredCents(v.amount)
      case None => Threw(StoreFailed, table)
      case Some(cents) =>
        if !storeAccepts then Threw(StoreFailed, table)
        else if id in table then
          var row := table[id].(customerId := v.customerId, amount := cents, status := v.status);
          Finished(table[id := row], RevalidateAndRedirect)
        else
          Finished(table, RevalidateAndRedirect)
  }

  /** `deleteInvoice(id)`: revalidates the list but does not redirect. Deleting
      an id that is not in the table is a no-op. */
  function DeleteInvoice(id: InvoiceId, storeAccepts: bool, table: Table): (r: Outcome)
    ensures r.Threw? <==> !storeAccepts
    ensures r.Threw? ==> r.error == StoreFailed && r.table == table
    ensures r.Finished? ==>
      && r.table.Keys == table.Keys - {id}
      && |r.table| == (if id in table then |table| - 1 else |table|)
      && (forall k :: k in r.table ==> r.table[k] == table[k])
      && r.effects == [Revalidate(InvoicesPath)]
  {
    if !storeAccepts then Threw(StoreFailed, table)
    else Finished(table - {id}, [Revalidate(InvoicesPath)])
  }

  // ---------------------------------------------------------------------------
  // Properties relating the actions
  // ---------------------------------------------------------------------------

  /** A rejected form reaches no SQL statement: create and update both throw
      the validation error with the table untouched and emit nothing. */
  lemma RejectedFormWritesNothing(toNumber: NumberParser, form: InvoiceForm, now: string,
                                  newId: InvoiceId, id: InvoiceId, storeAccepts: bool, table: Table)
    requires |Issues(toNumber, form)| > 0
    ensures CreateInvoice(toNumber, form, now, newId, storeAccepts, table)
            == Threw(ValidationFailed(Issues(toNumber, form)), table)
    ensures UpdateInvoice(toNumber, id, form, storeAccepts, table)
            == Threw(ValidationFailed(Issues(toNumber, form)), table)
  {
  }

  /** Deleting the row a create has just added gives back the original table. */
  lemma DeleteUndoesCreate(toNumber: NumberParser, form: InvoiceForm, now: string,
                           newId: InvoiceId, table: Table)
    requires CreateInvoice(toNumber, form, now, newId, true, table).Finished?
    ensures DeleteInvoice(newId, true, CreateInvoice(toNumber, form, now, newId, true, table).table)
            == Finished(table, [Revalidate(InvoicesPath)])
  {
    var created := CreateInvoice(toNumber, form, now, newId, true, table).table;
    assert created - {newId} == table;
  }

  /** Submitting the same edit twice leaves the table as one submission does. */
  lemma UpdateIsIdempotent(toNumber: NumberParser, id: InvoiceId, form: InvoiceForm, table: Table)
    requires UpdateInvoice(toNumber, id, form, true, table).Finished?
    ensures var once := UpdateInvoice(toNumber, id, form, true, table).table;
            UpdateInvoice(toNumber, id, form, true, once) == Finished(once, RevalidateAndRedirect)
  {
    var once := UpdateInvoice(toNumber, id, form, true, table).table;
    if id in table {
      assert once[id := once[id]] == once;
    }
  }

  /** Deleting an id twice leaves the table as deleting it once does. */
  lemma DeleteIsIdempotent(id: InvoiceId, table: Table)
    ensures var once := DeleteInvoice(id, true, table).table;
            DeleteInvoice(id, true, once) == Finished(once, [Revalidate(InvoicesPath)])
  {
    var once := DeleteInvoice(id, true, table).table;
    assert once - {id} == once;
  }

  /** Validation checks only that `customerId` is a string: the empty string
      passes. */
  lemma EmptyCustomerIdIsAccepted(toNumber: NumberParser, amountText: string)
    requires exists x :: toNumber(amountText) == Num(x) && x > 0.0
    ensures Validate(toNumber, InvoiceForm(Text(""), Text(amountText), Text("paid"))).Success?
  {
  }

  /** An amount that validates but that the `INT` column refuses (`Infinity`,
      fractional cents, more than 32 bits) gets past `parse` and fails at the
      store: both actions throw a store error, not a validation error, and
      leave the table as it was. */
  lemma RefusedAmountFailsAtTheStore(toNumber: NumberParser, form: InvoiceForm, now: string,
                                     newId: InvoiceId, id: InvoiceId, storeAccepts: bool, table: Table)
    requires Validate(toNumber, form).Success?
    requires StoredCents(CoerceNumber(toNumber, form.amount)).None?
    ensures CreateInvoice(toNumber, form, now, newId, storeAccepts, table) == Threw(StoreFailed, table)
    ensures UpdateInvoice(toNumber, id, form, storeAccepts, table) == Threw(StoreFailed, table)
  {
  }

  /** `Infinity` passes zod 3's `z.coerce.number().gt(0)`, and the store then
      refuses it. */
  lemma InfinityPassesValidation(toNumber: NumberParser, customerId: string, amountText: string)
    requires toNumber(amountText) == PosInfinity
    ensures Validate(toNumber, InvoiceForm(Text(customerId), Text(amountText), Text("pending"))).Success?
    ensures StoredCents(toNumber(amountText)) == None
  {
  }

  /** An amount with a fraction of a cent, such as `0.005`, validates but
      cannot be stored. */
  lemma FractionOfACentCannotBeStored()
    ensures StoredCents(Num(0.005)) == None
    ensures StoredCents(Num(19.5)) == Some(1950)
  {
    assert !IsWhole(0.005 * 100.0) by {
      assert (0.5).Floor == 0;
    }
  }
}
