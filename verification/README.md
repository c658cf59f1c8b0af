# Invoice dashboard core, modelled in Dafny

A model of the server-side core of a Next.js invoice dashboard. The
dashboard keeps customers, invoices and monthly revenue in a relational
store, and lets a signed-in user list, page through, create, edit and delete
invoices. The model covers the parts of that core that hold logic:

- `Utils` (app/lib/utils.ts):
  - `generatePagination`, the page-number strip under the invoice table.
  - `generateYAxis`, the `$<n>K` labels of the revenue chart.
- `AuthConfig` (auth.config.ts): the `authorized` route gate and the sign-in
  page it sends anonymous visitors to.
- `Auth` (auth.ts): `authorize`, the credentials provider, and `getUser`.
  - The email syntax check and the bcrypt comparison are parameters.
  - The `users` table is a sequence of rows, or a store that cannot be reached.
- `Actions` (app/lib/actions.ts): the `InvoiceSchema` form validation, and
  `createInvoice`, `updateInvoice` and `deleteInvoice`.
  - The three actions are transformations of a `map` from invoice id to row.
  - Cache revalidation and redirects come out as effect values.
  - An exception is an outcome that leaves the table as it was.
- `Data` (app/lib/data.ts), what the read functions do with a store's reply:
  - the fixed message each function throws in place of any store failure;
  - the paid and pending totals of `fetchCardData`;
  - the paging arithmetic of `fetchFilteredInvoices` and
    `fetchInvoicesPages` (`ITEMS_PER_PAGE`, the offset and range, and the page
    count);
  - the flattening of joined invoice rows.
- `Outcomes`: JavaScript's `null`/`undefined` (`Option`, with `??` as
  `Coalesce`) and a call that returns or throws (`Result`), shared by the other
  modules.

Inputs the code reads from outside become parameters of the model:

- the clock reading `new Date().toISOString()`;
- the id the store assigns to a new invoice;
- whether a SQL statement succeeds;
- the reply of each store query;
- JavaScript's `Number(text)`;
- the email syntax check and `bcrypt.compare`.

Some behaviours of the code are easy to overlook, and the model keeps them:

- Form validation uses `parse`, so a rejected form throws a `ZodError`.
  - `Actions.Validate` returns the failing fields.
  - The actions turn them into a thrown `ValidationFailed` outcome.
- The actions do not catch store failures: a failed statement throws
  `StoreFailed`.
- The `amount` column is `INT` (app/seed/route.ts:45).
  - A validated amount whose cents are not a whole 32-bit integer fails at the
    store, not in `parse`.
  - `Infinity` is such an amount, and so is `0.005`.
- `customerId: z.string()` accepts the empty string
  (`Actions.EmptyCustomerIdIsAccepted`).
- `fetchCardData` never reads the `error` fields of its three replies.
  - A reported store error gives zero counts and totals instead of a failure
    (`Data.CardDataIgnoresReportedErrors`).
  - Only a rejected promise reaches its `catch`.

## Model

| member | source | states |
|---|---|---|
| Utils.GeneratePagination | app/lib/utils.ts:38-64 | Up to seven pages, the strip is pages 1..totalPages in order, and empty for a negative count. Otherwise it has 6 cells with one `'...'` when `currentPage <= 3` or `currentPage >= totalPages - 2`, and 7 cells with two `'...'` otherwise. Near the start the marker is at position 3 (pages 1-3, marker, the last two); near the end it is at position 2 (pages 1-2, marker, the last three). In the middle case the markers are at positions 1 and 5, around the current page and its two neighbours. It always opens on page 1 and closes on the last page. A current page in range is always shown. The strip is well formed: neighbouring pages are consecutive, markers never touch, and every marker hides at least one page. Its pages strictly increase within 1..totalPages. |
| Utils.FullStrip | app/lib/utils.ts:40-42 | `Array.from({length: totalPages}, (_, i) => i + 1)`: cell i is page i+1, with length max(0, totalPages). The strip is well formed and contains the current page when it is in range. |
| Utils.LeadingStrip | app/lib/utils.ts:45-47 | For a current page at most 3: six cells, one marker at position 3, opening on page 1 and closing on the last page. The current page is shown when it is at least 1. |
| Utils.TrailingStrip | app/lib/utils.ts:50-52 | For `currentPage >= totalPages - 2` (and above 3): six cells, one marker at position 2, opening on page 1 and closing on the last page. The current page is shown when it is in range. |
| Utils.MiddleStrip | app/lib/utils.ts:55-63 | Seven cells with markers at positions 1 and 5. The three cells between them are the current page and its neighbours. |
| Utils.StripAccountsForExactlyAllPages | app/lib/utils.ts:38-64 | In a nonempty well-formed strip, a page number is either shown or enclosed by the pages around a marker exactly when it lies in 1..totalPages. |
| Utils.PaginationAccountsForEveryPage | app/lib/utils.ts:38-64 | Every page 1..totalPages can be reached from the strip `generatePagination` returns, directly or behind a marker, and no other page number can. |
| Utils.HighestRecord | app/lib/utils.ts:28 | `Math.max` over a nonempty revenue list is at least every record and equal to one of them. |
| Utils.CeilToThousand | app/lib/utils.ts:29 | `Math.ceil(x / 1000) * 1000` is a multiple of 1000 with x <= t < x + 1000. |
| Utils.CeilToThousandIsLeast | app/lib/utils.ts:29 | No multiple of 1000 at or above x lies below the rounded value, so the top label is the least one that covers the highest record. |
| Utils.Decimal | app/lib/utils.ts:32 | The decimal text of a number in the template literal is a nonempty digit string, with no leading zero except for 0 itself. |
| Utils.DecimalRoundTrip | app/lib/utils.ts:32 | Reading the decimal text of n back as digits gives n. |
| Utils.ThousandsLabelRoundTrip | app/lib/utils.ts:32 | The label `$<k>K` parses back to k thousand. |
| Utils.GenerateYAxis | app/lib/utils.ts:24-36 | An empty list gives a top label of -Infinity and no labels. Otherwise the top label is a multiple of 1000, at or above every record and less than 1000 above one of them. There are top/1000 + 1 labels when the top label is non-negative and none otherwise. Label j is exactly `$<top/1000 - j>K`, with no leading zeros, counting down to `$0K`. |
| AuthConfig.Authorized | auth.config.ts:12-27 | On a path that starts with `/dashboard`, the answer is `true` exactly when the session has a user; otherwise it is `false`, which sends the visitor to sign-in. Off the dashboard, a logged-in user is redirected to `/dashboard` and anyone else is let through. |
| AuthConfig.LandsOnDashboardIffLoggedIn | auth.config.ts:8-27 | After the gate acts (the `signIn: '/login'` page on `false`), the visitor ends up inside `/dashboard` exactly when logged in. |
| AuthConfig.DestinationIsAllowed | auth.config.ts:8-27 | The page a decision leads to is one the gate lets through, so the gate never redirects in a loop. |
| AuthConfig.DecisionDependsOnlyOnLoginAndPrefix | auth.config.ts:14-16 | The decision is a function of `!!auth?.user` and the `/dashboard` prefix test alone. |
| AuthConfig.PrefixedPathsAreProtected | auth.config.ts:16-21 | Any path that begins with `/dashboard`, such as `/dashboards`, refuses an anonymous visitor. |
| Auth.ParseCredentials | auth.ts:22-24 | The credentials parse exactly when the email is a string that passes the email check and the password is a string of at least 6 characters. The parsed values are the submitted ones. |
| Auth.RowsWithEmail | auth.ts:48 | `SELECT * FROM users WHERE email = ...` returns only rows with that email. It is empty exactly when no row has it, and its first row is the first matching row of the table. |
| Auth.GetUser | auth.ts:46-54 | The lookup throws `'Failed to fetch user.'` exactly when the query fails. It gives `undefined` exactly when no row has the email, and otherwise the first matching row. |
| Auth.Authorize | auth.ts:19-40 | Unparseable credentials give `null`. A failed lookup with parseable credentials throws the lookup's message. The user is returned exactly when the credentials parse, a first row with the email exists, and the password matches its hash. The returned user is that row. |
| Auth.FirstMatchIsUnique | auth.ts:48-49 | `user.rows[0]` names a single row: two first matches are the same row. |
| Auth.NoSuchUserAndWrongPasswordLookAlike | auth.ts:30-39 | An unknown email and a wrong password both give `null`, so the caller cannot tell them apart. |
| Auth.UnparsedCredentialsNeverReachTheStore | auth.ts:26-39 | Credentials that do not parse give `null` whatever the store holds, even when it is down. |
| Auth.LookupFailureIsNotARefusal | auth.ts:29 | With parseable credentials, a failed lookup throws `'Failed to fetch user.'` and never yields `null`. |
| Actions.Validate | app/lib/actions.ts:10-25 | The form passes exactly when `customerId` is a string, `Number(amount)` is `+Infinity` or a finite value above 0 (zod 3's `z.number()` refuses only NaN), and `status` is `pending` or `paid`. `null` counts as 0 and a file as NaN. On success the values are the coerced ones. On failure the error lists at least one field, and lists each field exactly when that field fails. |
| Actions.DatePart | app/lib/actions.ts:39 | `split('T')[0]` is a prefix of the timestamp containing no `T`, and is followed by the first `T` when it is shorter. |
| Actions.StoredCents | app/lib/actions.ts:37 | The `INT` column takes `amount * 100` exactly when the amount is finite and its cents are a whole number within 32 bits. The stored value divided by 100 is the amount. |
| Actions.InsertRow | app/lib/actions.ts:36-45 | The INSERT adds one row under a fresh id and keeps the other rows. The new row holds the stored cents and the date: the clock reading up to its first `T`, or all of it when there is none. |
| Actions.CreateInvoice | app/lib/actions.ts:27-51 | An invalid form throws a validation error carrying exactly the failing fields. On a valid form, any throw is a store error. The action finishes exactly when the form is valid, the `INT` column takes the cents and the INSERT succeeds. Then the table gains exactly the new id and the other rows are unchanged. The new row holds the form's customer, the amount in cents (the amount is the stored value / 100) and status. Its date is the clock reading up to its first `T`. The effects are revalidate then redirect to `/dashboard/invoices`. A throw leaves the table unchanged. |
| Actions.UpdateInvoice | app/lib/actions.ts:55-74 | An invalid form throws a validation error carrying exactly the failing fields. On a valid form, any throw is a store error. The action finishes exactly when the form is valid, the `INT` column takes the cents and the UPDATE succeeds. Then no id is added or removed and every other row is unchanged. The edited row takes the form's customer, amount in cents and status, and keeps its date. An unknown well-formed id changes nothing and does not fail. The effects are revalidate then redirect. |
| Actions.DeleteInvoice | app/lib/actions.ts:77-80 | The delete throws a store error exactly when the DELETE fails, with the table unchanged. Otherwise the id leaves the table, which shrinks by one when the id was present, and the other rows are unchanged. The only effect is revalidating the list, with no redirect. |
| Actions.RejectedFormWritesNothing | app/lib/actions.ts:30-34 | A form with any failing field makes create and update throw that field list with the table untouched. |
| Actions.DeleteUndoesCreate | app/lib/actions.ts:27-80 | Deleting the invoice a create has just inserted gives back the original table. |
| Actions.UpdateIsIdempotent | app/lib/actions.ts:57-74 | Submitting the same edit twice leaves the table as one submission does. |
| Actions.DeleteIsIdempotent | app/lib/actions.ts:77-80 | Deleting an id twice leaves the table as deleting it once does. |
| Actions.EmptyCustomerIdIsAccepted | app/lib/actions.ts:14 | `customerId: z.string()` accepts the empty string. |
| Actions.RefusedAmountFailsAtTheStore | app/lib/actions.ts:30-45 | A form that validates but whose amount the `INT` column refuses makes create and update throw a store error, with the table unchanged. |
| Actions.InfinityPassesValidation | app/lib/actions.ts:16 | `Infinity` passes `z.coerce.number().gt(0)` and then cannot be stored. |
| Actions.FractionOfACentCannotBeStored | app/lib/actions.ts:37 | `0.005` cannot be stored, while `19.5` is stored as 1950 cents. |
| Data.Checked | app/lib/data.ts:17-28 | The shared `if (error) throw error` inside `try`/`catch` fails exactly when the call rejected or reported an error. The failure carries the function's fixed message, and a success hands back the body. |
| Data.StoreErrorIsNeverSurfaced | app/lib/data.ts:25-28 | A rejected call and any two reported errors throw the same message, so no store detail reaches the caller. |
| Data.FailureMessagesAreDistinct | app/lib/data.ts:27-209 | The eight read functions throw eight different messages. |
| Data.FetchRevenueRows | app/lib/data.ts:12-29 | `fetchRevenue` returns the store's rows, or throws `'Failed to fetch revenue data.'`. |
| Data.FetchCustomerFields | app/lib/data.ts:177-191 | `fetchCustomers` returns the store's id/name rows, or throws `'Failed to fetch all customers.'`. |
| Data.StatusTotalAppend | app/lib/data.ts:78-81 | The total of one status over two concatenated lists is the sum of their totals. |
| Data.ReduceComputesStatusTotal | app/lib/data.ts:78-81 | The left-fold `reduce` from any start value equals that value plus the sum of the amounts of the rows whose status is exactly the given one. |
| Data.TotalsSplitAmountSum | app/lib/data.ts:78-81 | When every row is `paid` or `pending`, the two totals add up to the sum of all amounts. |
| Data.UnknownStatusCountsNowhere | app/lib/data.ts:78-81 | A row with any other status changes neither total. |
| Data.OptionalTotal | app/lib/data.ts:78-81 | `invoiceStatus?.reduce(...) ?? 0` is the reference total of that status over the rows, and 0 when the store sent no rows. |
| Data.FetchCardDataTotals | app/lib/data.ts:63-93 | The card data throws `'Failed to fetch card data.'` exactly when one of the three calls rejects. Otherwise the counts are the reported counts (0 when absent). The paid and pending totals are the reference sums over the status rows (0 when absent). |
| Data.CardDataIgnoresReportedErrors | app/lib/data.ts:65-88 | Reported `error` fields change nothing in the card data. |
| Data.PageRange | app/lib/data.ts:95-119 | Page n asks for the range starting at (n-1)×6, exactly `ITEMS_PER_PAGE` rows wide, both ends inclusive. |
| Data.Window | app/lib/data.ts:119 | An inclusive range yields at most its width in rows. A nonempty range that starts inside the matches starts at the match it names. |
| Data.PageCount | app/lib/data.ts:144 | `Math.ceil((count ?? 0) / 6)` is the fewest pages that hold every match: n×6 ≥ count, and (n-1)×6 < count when n > 0. |
| Data.PagesStartInsideMatches | app/lib/data.ts:101-144 | Every page up to the count starts inside the matches, and the page after the last one starts past them. |
| Data.Covered | app/lib/data.ts:101-119 | The first n pages hold no more rows than there are matches. |
| Data.PageIsSlice | app/lib/data.ts:101-119 | Page n is exactly the slice of matches between what pages 1..n-1 and pages 1..n hold. |
| Data.FirstPagesArePrefix | app/lib/data.ts:101-119 | Pages 1..n, laid end to end, are the first min(6n, count) matches in order. |
| Data.PagesCoverEveryMatchOnce | app/lib/data.ts:97-150 | Paging through the `fetchInvoicesPages` count of pages hands back every match exactly once, in order. |
| Data.FetchInvoicesPageCount | app/lib/data.ts:135-150 | `fetchInvoicesPages` throws its message exactly when the call fails. Otherwise it returns the ceiling page count, which is 0 for a zero or missing count. |
| Data.ThirteenMatchesMakeThreePages | app/lib/data.ts:144 | Thirteen matching invoices make three pages. |
| Data.FlattenRow | app/lib/data.ts:123-128 | A flattened row has its customer's name, email and image URL lifted to the top level. Dropping them gives back the joined row. |
| Data.FlattenRows | app/lib/data.ts:123-128 | The `map` succeeds exactly when every row has a customer. It then keeps the length and order, and each row is the flattening of its source row. |
| Data.FetchFilteredInvoiceRows | app/lib/data.ts:97-133 | `fetchFilteredInvoices` succeeds exactly when the call succeeded with a body and every row has a customer. It then returns the flattened rows in store order. Otherwise it throws `'Failed to fetch invoices.'`. |
| Data.NoMatchesGiveEmptyList | app/lib/data.ts:121-128 | A search with no matches gives an empty list, not an error. |

## Left out

- `formatCurrency` and `formatDateToLocal` are not modelled: locale formatting through `Intl` belongs to the JavaScript runtime. The card totals stay in cents.
- Store queries are left out.
  - The SQL and Supabase semantics are not modelled: the `ilike` filter, `order('date')`, the join, the `get_customer_summary` procedure, and `count: 'exact'`.
  - Each query is an input reply.
  - For paging, the matches are the store's already-ordered result.
- Users are scanned in store order. Which row `user.rows[0]` is depends on the store, and is taken to be the first row in that order.
- Some read functions are modelled only through their shared error translation and fixed messages (`Data.Checked`, `Data.FailureMessage`):
  - `fetchLatestInvoices`, whose mapping (app/lib/data.ts:49-55) formats the amount and lifts the customer's name, image_url and email, keeping only `id` besides. A null body (`data.map`) or a row without a customer (`invoice.customers.name`) throws there, and the `catch` turns that into the same fixed message. Only the `error` check is modelled, so `Data.Checked` returns these cases as a success;
  - `fetchInvoiceById`, whose `amount / 100` is the inverse of the actions' `× 100`;
  - `fetchFilteredCustomers`, whose `data.map` (app/lib/data.ts:200) throws on a null body and then also ends in its fixed message. Only the `error` check is modelled.
- `Actions.CreateInvoice`: `amount * 100` is taken exactly on reals, and IEEE-754 rounding is not modelled. In JavaScript `19.99 * 100` is 1998.9999999999998, which the `INT` column refuses rather than rounds, so such an INSERT fails where the model stores 1999.
- `Actions.UpdateInvoice`: `amount * 100` is taken exactly on reals, as for create, so the same IEEE-754 refusals are not modelled.
- `Actions.Validate`: JavaScript's `Number(text)` grammar is a parameter, not modelled.
  - The schema is read with zod 3, which the code's era suggests; no package manifest is part of this model.
  - Under zod 4, `z.number()` also refuses the infinities, and `Infinity` would fail in `parse` instead of at the store.
- `Actions.DatePart`: the ISO timestamp comes from the clock, which is a parameter.
- Store-assigned ids are a parameter. A failed INSERT, UPDATE or DELETE is a boolean parameter, and an INSERT under an id already in use counts as a failed INSERT.
- Of the column types, only `amount INT` is modelled. The `id` and `customer_id` columns are UUIDs (app/seed/route.ts:43-44), so a malformed invoice id in UPDATE or DELETE, or a `customer_id` that is not a UUID (the empty string, for one), is refused by the store. This is covered only by the boolean store parameter, so an unknown but malformed id does not give the no-op the model shows for a well-formed one.
- The text JavaScript gives a number with an exponent (`1e21` and up) is not modelled. Such values are outside 32 bits and are refused anyway.
- Next.js plumbing is left out, apart from the paths the effects record:
  - `revalidatePath` and `redirect` are effect values.
  - The framework's handling of the `NEXT_REDIRECT` throw is not modelled.
  - `new URL('/dashboard', nextUrl)` is modelled by its path alone.
- NextAuth's session handling, sign-in and sign-out, and the `providers` list are not modelled. The gate receives the session as an input.
- `Auth.ParseCredentials`: the email syntax check of `z.string().email()` and `bcrypt.compare` are parameters.
- String lengths count Dafny characters, not UTF-16 code units.
- `console.log`, `console.error` and the three-second artificial delay in `fetchRevenue` are not modelled, because they have no effect on results.
- `Utils.GeneratePagination`: page numbers are integers.
  - The NaN a caller's `parseInt` can produce is not modelled.
  - A negative page count gives the empty strip, as `Array.from` does.
- `Data.Window` requires a non-negative start. The offset of a page number below 1 is negative, which the store rejects or clamps, and that path is not modelled.
- `Utils.GenerateYAxis`: revenue values are integers, as the `revenue` column is. A fractional value and `Math.max` on NaN are not modelled.
- app/seed/route.ts, middleware.ts, app/ui/search.tsx and the page components are not part of this model. They are presentation and setup code around the core.
