# AbastoFlow — a verified model of its decision rules

AbastoFlow is an inventory and point-of-sale web application for small shops. It is a
React front end over a hosted Postgres/auth service, plus one server-side function that
provisions cashier accounts. This project models in Dafny the parts of it that decide
something:

- **Navigation.** Covers the three route guards, the pending-approval page's redirect
  effect, and the route table. We prove that following redirects never loops.
- **Record sagas.** Checkout, the sale form and the purchase form write a header, then its
  line items, and delete the header again when the items are refused. The `create-worker`
  function creates an account, looks up the owner, and inserts the profile, deleting the
  account on a later failure. Also the admin approval and rejection handlers, the
  worker-request form, the admin login, and the product, password and profile forms.
- **Validation and arithmetic.** The sale, purchase and product schemas; totals, profit and
  change; the password and profile schemas.
- **Reporting reductions.** The dashboard sums and the low-stock count; the first five
  low-stock products; per-product quantities sorted and cut to five; payment-method counts
  with their labels; the profit margin.
- **Small helpers.** The product search and the avatar initials.

The hosted service is replaced by `Remote.Db`, a value holding every table as a sequence of
rows. It also holds the auth accounts, the current session, a counter for fresh ids and a
log of the calls made. Each remote call is a function on `Db` with a `fails` flag, so that
each call independently succeeds or is refused. It returns a `Step` holding the new store
and the answer. `Remote.Store` is the mutable client: a class with one `db` field and one
method per call.

Each handler of the source that runs its calls one after another is modelled twice:

- a method on the component's class, run against a `Store`;
- a pure function describing the same effect (`CheckoutEffect`, `SubmitEffect`, `Handle`, ...).

The method's postcondition says that it does exactly what the function describes. The
lemmas then prove what the source promises about that function: what is written, what is
undone, and which outcomes are possible. The dashboard widgets take the answers of their
queries as parameters. Their fetch methods keep the state unchanged when a query fails.

JavaScript numbers are modelled as `real`, and zod's `.int()` as "has no fractional part".
Identifiers are natural numbers. Roles are the stored text, so unrecognised roles are
covered. Email validity is a parameter `isEmail`.

`create-worker` answers 400 for every `createUser` error, an already-registered email
included (supabase/functions/create-worker/index.ts:27-36); see
`CreateWorker.RegisteredEmailRefused`.

## Model

| member | source | states |
|---|---|---|
| ProtectedRoute.Decide | src/components/auth/ProtectedRoute.tsx:12-36 | exactly one view per state: the placeholder iff loading; /login iff no user or no profile; /admin/dashboard iff admin; /pending-approval iff pendiente; the content iff any other role |
| ProtectedRoute.OtherRolesSeeContent | src/components/auth/ProtectedRoute.tsx:36 | every role that is neither admin nor pendiente sees the content, including rechazado and unknown text |
| PublicRoute.Decide | src/components/auth/PublicRoute.tsx:12-32 | the placeholder iff loading; the public page iff no user or no profile; admin to /admin/dashboard, pendiente to /pending-approval, any other role to /dashboard, each as an iff |
| AdminRoute.Decide | src/components/auth/AdminRoute.tsx:12-26 | the placeholder iff loading; the content iff the role is admin; a redirect to /login in every other loaded state |
| AdminRoute.RedirectLeavesAdminArea | src/components/auth/AdminRoute.tsx:20-23 | the guard's redirect target lies outside /admin/, so it cannot send a visitor back into the admin area |
| PendingApproval.EffectTarget | src/pages/auth/PendingApprovalPage.tsx:12-20 | no navigation while loading; /login iff loaded without user; /dashboard iff loaded with a profile that is not pendiente; no navigation iff loading, or a user who is pendiente or has no profile |
| PendingApproval.RunEffect | src/pages/auth/PendingApprovalPage.tsx:12-20 | the effect navigates once, to the effect's target, or not at all |
| PendingApproval.CardShown | src/pages/auth/PendingApprovalPage.tsx:23-60 | the approval card with sign-out shows iff loaded with a profile |
| PendingApproval.NoProfileStaysVerifying | src/pages/auth/PendingApprovalPage.tsx:14-17 | a signed-in user without a profile is neither moved nor shown the approval card |
| AppRoutes.GuardOf | src/App.tsx:30-56 | /, /login and /registro are public; /dashboard is protected; /admin/dashboard is admin-only; the rest are unguarded |
| AppRoutes.LoadingNeverRedirects | src/App.tsx:30-56 | while the session loads no path redirects |
| AppRoutes.RedirectTargetsAreRoutes | src/App.tsx:30-56 | every redirect goes to a listed route, never to the not-found page |
| AppRoutes.NoRedirectLoop | src/App.tsx:30-56 | every session on every path reaches a page that does not redirect within two redirects |
| AppRoutes.SecondRedirectSettles | src/App.tsx:30-56 | after two redirects, the page reached does not redirect again |
| AppRoutes.TwoRedirectsAreNeeded | src/App.tsx:35-54 | two is the least bound: an admin on /pending-approval goes to /dashboard and then to /admin/dashboard |
| AppRoutes.AdminLandsOnAdminDashboard | src/App.tsx:30-54 | from every guarded page an admin ends on /admin/dashboard |
| AppRoutes.PendienteLandsOnPendingApproval | src/App.tsx:30-54 | from every guarded page a pendiente user ends on /pending-approval |
| AppRoutes.OtherRolesLandOnDashboard | src/App.tsx:30-54 | from every guarded page any other role ends on /dashboard |
| AppRoutes.AnonymousLandsOnLogin | src/App.tsx:30-54 | without a user the public pages render in place, and the pending page and both dashboards lead to /login |
| AppRoutes.MissingProfileLanding | src/App.tsx:30-54 | a user without a profile stays on the public pages and the pending page, and goes to /login from the dashboards |
| AdminLogin.SignInRefusedStops | src/pages/admin/AdminLoginPage.tsx:40-49 | a refused sign-in makes no profile lookup and changes only the call log |
| AdminLogin.AdmittedExactlyWhen | src/pages/admin/AdminLoginPage.tsx:38-71 | admitted iff the form is valid, sign-in and lookup succeed and the matching account's profile has role admin; an admitted user stays signed in |
| AdminLogin.OthersSignedOut | src/pages/admin/AdminLoginPage.tsx:58-71 | a missing profile or a non-admin role ends with no session and a sign-out call |
| AdminLogin.Page.Submit | src/pages/admin/AdminLoginPage.tsx:21-74 | the store changes as the login effect says; only an admitted login navigates, to /admin/dashboard; `loading` is false on every exit once submitted |
| CurrentSale.RowSubtotals | src/components/pos/CurrentSale.tsx:56 | one subtotal per row, quantity times price |
| CurrentSale.TotalIsSumOfRows | src/components/pos/CurrentSale.tsx:20-56 | the total equals the sum of the subtotals shown in the rows |
| CurrentSale.TotalAppend | src/components/pos/CurrentSale.tsx:20 | one more line adds its quantity times price to the total |
| CurrentSale.TotalNonNegative | src/components/pos/CurrentSale.tsx:20 | with no negative quantity or price the total is not negative |
| CurrentSale.QuantityFromInput | src/components/pos/CurrentSale.tsx:50 | text that does not parse as an integer is reported as 0 |
| CurrentSale.QuantityFromInputReadsBack | src/components/pos/CurrentSale.tsx:50-53 | every integer typed in is reported as itself, negative or above the stock included |
| CurrentSale.Panel.PressCheckout | src/components/pos/CurrentSale.tsx:79 | the checkout dialog opens iff the cart is not empty |
| CurrentSale.Panel.SetCheckoutOpen | src/components/pos/CurrentSale.tsx:83-89 | the dialog's open flag is what the dialog sets |
| Checkout.Change | src/components/pos/CheckoutDialog.tsx:31 | the change is never negative, is either 0 or received minus total, and makes up the amount received when that covers the total |
| Checkout.ProfitIsTotalLessCost | src/components/pos/CheckoutDialog.tsx:42-45 | the profit stored is the cart total less the cost of the goods, missing costs as 0 |
| Checkout.Customer | src/components/pos/CheckoutDialog.tsx:51 | the typed name, or "Mostrador" when it is empty; never empty |
| Checkout.ItemRows | src/components/pos/CheckoutDialog.tsx:66-72 | one row per cart line with that line's product, quantity, price and cost |
| Checkout.CheckoutWithoutUser | src/components/pos/CheckoutDialog.tsx:35-40 | without an authenticated user nothing is written, only the user lookup is logged |
| Checkout.CheckoutRecordsCart | src/components/pos/CheckoutDialog.tsx:47-72 | a recorded sale appends the header (given total, cart profit, payment method, customer) and one row per line pointing at its fresh id |
| Checkout.CheckoutCompensates | src/components/pos/CheckoutDialog.tsx:74-81 | refused items with a successful delete leave the sales and item tables as before |
| Checkout.RowsAmount | src/components/pos/CheckoutDialog.tsx:53-72 | the item rows' quantity times price adds up to the cart total |
| Checkout.CheckoutHeaderMatchesItems | src/components/pos/CheckoutDialog.tsx:47-72 | with the panel's total, the header's amount is the sum over the item rows written for it |
| Checkout.CheckoutDialog.HandleCheckout | src/components/pos/CheckoutDialog.tsx:33-88 | the store changes as the checkout effect says; `loading` ends false; the payment method is kept; only on success is the dialog closed and received amount and customer reset |
| Ledger.WithSaleId | src/components/pos/CheckoutDialog.tsx:66-72 | every item row carries the new sale's id and nothing else changes |
| Ledger.RecordSaleOutcome | src/components/pos/CheckoutDialog.tsx:47-88 | the header refused iff header failure; recorded iff header and items accepted; items failed otherwise, undone iff the delete succeeded |
| Ledger.RecordSaleHeaderFailure | src/components/pos/CheckoutDialog.tsx:60-64 | a refused header changes no table and sends no items |
| Ledger.RecordSaleSuccess | src/components/pos/CheckoutDialog.tsx:47-72 | success appends the header with a fresh id and the rows pointing at it, and nothing else |
| Ledger.UndoSaleInsert | src/components/pos/CheckoutDialog.tsx:78 | deleting by the fresh id removes exactly the appended header |
| Ledger.RecordSaleCompensates | src/components/pos/CheckoutDialog.tsx:74-81 | refused items plus a successful delete restore every table; only the id counter and the log moved |
| Ledger.RecordSaleOrphan | src/components/dashboard/SaleForm.tsx:144-148 | when the delete is refused too, the header stays without items |
| Ledger.RecordSaleKeepsValid | src/components/dashboard/SaleForm.tsx:113-148 | the saga keeps every id below the counter |
| Ledger.WithPurchaseId | src/components/dashboard/PurchaseForm.tsx:114-122 | every item row carries the new purchase's id |
| Ledger.RecordPurchaseOutcome | src/components/dashboard/PurchaseForm.tsx:96-134 | the same outcome table as the sale saga, for purchases |
| Ledger.RecordPurchaseHeaderFailure | src/components/dashboard/PurchaseForm.tsx:109-112 | a refused header changes no table and sends no items |
| Ledger.RecordPurchaseSuccess | src/components/dashboard/PurchaseForm.tsx:96-129 | success appends the header with a fresh id and the rows pointing at it, and nothing else |
| Ledger.UndoPurchaseInsert | src/components/dashboard/PurchaseForm.tsx:127 | deleting by the fresh id removes exactly the appended header |
| Ledger.RecordPurchaseCompensates | src/components/dashboard/PurchaseForm.tsx:124-129 | refused items plus a successful delete restore every table |
| Ledger.RecordPurchaseOrphan | src/components/dashboard/PurchaseForm.tsx:124-129 | when the delete is refused too, the header stays without items |
| Ledger.RecordPurchaseKeepsValid | src/components/dashboard/PurchaseForm.tsx:96-129 | the saga keeps every id below the counter |
| SaleForm.Offered | src/components/dashboard/SaleForm.tsx:293 | the picker lists exactly the products with stock above zero, in order |
| SaleForm.NewLine | src/components/dashboard/SaleForm.tsx:298-305 | a picked line: quantity 1, the product's price, its cost or 0, and its stock as the snapshot |
| SaleForm.PickedLineValid | src/components/dashboard/SaleForm.tsx:298-305 | a picked product with whole stock and no negative price or cost gives a line the schema accepts |
| SaleForm.DuplicateLinesCheckedSeparately | src/components/dashboard/SaleForm.tsx:297-309 | picking a one-unit product twice gives a valid form whose quantities exceed the stock |
| SaleForm.ProfitAtMostAmount | src/components/dashboard/SaleForm.tsx:99-111 | for valid lines the profit never exceeds the amount, and the amount is not negative |
| SaleForm.ItemRows | src/components/dashboard/SaleForm.tsx:133-140 | one row per line with its product, quantity, price and cost |
| SaleForm.SubmitInvalid | src/components/dashboard/SaleForm.tsx:36-55 | a form ends as invalid, sending nothing, iff the schema refuses it |
| SaleForm.SubmitWithoutUser | src/components/dashboard/SaleForm.tsx:102-106 | without a user nothing is written |
| SaleForm.SubmitRecords | src/components/dashboard/SaleForm.tsx:113-148 | a recorded sale holds the form's total, profit, method, customer and notes, and one row per line |
| SaleForm.SubmitCompensates | src/components/dashboard/SaleForm.tsx:144-148 | refused items with a successful delete leave no sale behind |
| SaleForm.Form.LoadProducts | src/components/dashboard/SaleForm.tsx:84-95 | the loaded list is the answer; an error keeps the old list |
| SaleForm.Form.Pick | src/components/dashboard/SaleForm.tsx:293-305 | picking appends a new line for an offered product with stock, even one already in the form |
| SaleForm.Form.Remove | src/components/dashboard/SaleForm.tsx:268 | removing deletes exactly that line |
| SaleForm.Form.Submit | src/components/dashboard/SaleForm.tsx:101-153 | the store changes as the submission effect says; only a recorded sale closes and resets the form |
| PurchaseForm.NewLine | src/components/dashboard/PurchaseForm.tsx:264-274 | a picked line: that product, quantity 1, cost 0 |
| PurchaseForm.PickedLineValid | src/components/dashboard/PurchaseForm.tsx:264-274 | every picked line passes the schema; there is no stock bound |
| PurchaseForm.TotalCostNonNegative | src/components/dashboard/PurchaseForm.tsx:87 | for valid lines the total cost is not negative |
| PurchaseForm.ItemRows | src/components/dashboard/PurchaseForm.tsx:114-121 | one row per line with its product, quantity and cost |
| PurchaseForm.RowsCost | src/components/dashboard/PurchaseForm.tsx:87-121 | the rows' quantity times cost adds up to the stored total cost |
| PurchaseForm.SubmitInvalid | src/components/dashboard/PurchaseForm.tsx:35-46 | a form ends as invalid, sending nothing, iff the schema refuses it |
| PurchaseForm.SubmitWithoutUser | src/components/dashboard/PurchaseForm.tsx:90-94 | without a user nothing is written |
| PurchaseForm.SubmitRecords | src/components/dashboard/PurchaseForm.tsx:96-129 | a recorded purchase stores the form's total cost and one row per line, adding up to it |
| PurchaseForm.SubmitCompensates | src/components/dashboard/PurchaseForm.tsx:124-129 | refused items with a successful delete leave no purchase behind |
| PurchaseForm.Form.LoadProducts | src/components/dashboard/PurchaseForm.tsx:74-84 | the loaded list is the answer; an error keeps the old list |
| PurchaseForm.Form.Pick | src/components/dashboard/PurchaseForm.tsx:264-274 | picking any product appends its new line |
| PurchaseForm.Form.Remove | src/components/dashboard/PurchaseForm.tsx:239 | removing deletes exactly that line |
| PurchaseForm.Form.Submit | src/components/dashboard/PurchaseForm.tsx:89-134 | the store changes as the submission effect says; only a recorded purchase closes and resets the form |
| CreateWorker.Status | supabase/functions/create-worker/index.ts:82-91 | failures answer 400 and everything else 200 |
| CreateWorker.PreflightHasNoEffect | supabase/functions/create-worker/index.ts:10-12 | OPTIONS answers and touches nothing |
| CreateWorker.MissingParametersRefusedFirst | supabase/functions/create-worker/index.ts:17-19 | a missing or empty parameter is refused with 400 before any call |
| CreateWorker.RegisteredEmailRefused | supabase/functions/create-worker/index.ts:27-36 | an already registered email fails like any account error and nothing else is done |
| CreateWorker.CreatedExactlyWhen | supabase/functions/create-worker/index.ts:15-85 | a worker is created iff the parameters are there, the account is created, the owner is found and the profile inserted; the status update plays no part |
| CreateWorker.CreatedWorker | supabase/functions/create-worker/index.ts:27-70 | success adds exactly one account and one profile: the new id, cajero, the requested name, the owner's commerce |
| CreateWorker.UndoAccount | supabase/functions/create-worker/index.ts:48-68 | deleting the fresh account restores the accounts |
| CreateWorker.FailureLeavesNoAccount | supabase/functions/create-worker/index.ts:41-91 | every failure answers 400, and once the delete succeeds, accounts and profiles are as before |
| CreateWorker.Serve | supabase/functions/create-worker/index.ts:10-91 | the handler run on the store does exactly what the request's effect says |
| WorkerRequestForm.ErrorsExactly | src/components/dashboard/WorkerRequestForm.tsx:27-31 | accepted iff the name is non-empty, the email well-formed and the password at least six characters |
| WorkerRequestForm.DefaultsRefused | src/components/dashboard/WorkerRequestForm.tsx:27-31 | the empty form cannot be sent |
| WorkerRequestForm.SubmitWritesRequest | src/components/dashboard/WorkerRequestForm.tsx:52-70 | only a valid form with a user writes; the row is the user as owner and the three fields, status pending; sent iff valid, a user, and accepted |
| WorkerRequestForm.Form.Submit | src/components/dashboard/WorkerRequestForm.tsx:52-70 | the store changes as the effect says; only a sent request closes and resets the form |
| AdminDashboard.RoleOptionsExcludeRejected | src/pages/admin/AdminDashboardPage.tsx:181-184 | the role selector never offers rechazado |
| AdminDashboard.FetchLists | src/pages/admin/AdminDashboardPage.tsx:43-54 | both queries are sent; lists arrive iff neither failed: all profiles, and exactly the pending requests in order |
| AdminDashboard.ApprovalRequestComplete | src/pages/admin/AdminDashboardPage.tsx:72-81 | a request written by the request form carries every parameter create-worker needs |
| AdminDashboard.ApproveIsCreateWorker | src/pages/admin/AdminDashboardPage.tsx:72-88 | approving writes nothing itself: the store changes as the function changes it, and success is a 200 |
| AdminDashboard.RejectTouchesOnlyThatRequest | src/pages/admin/AdminDashboardPage.tsx:89-90 | rejecting sets that request's status to rejected and changes no other row |
| AdminDashboard.Page.FetchData | src/pages/admin/AdminDashboardPage.tsx:43-54 | a failed query leaves both lists; `loading` ends false |
| AdminDashboard.Page.HandleRoleChange | src/pages/admin/AdminDashboardPage.tsx:61-69 | the page reloads only after a successful role update |
| AdminDashboard.Page.HandleRequest | src/pages/admin/AdminDashboardPage.tsx:71-98 | approve or reject, then reload whatever the outcome |
| AdminDashboard.Page.SelectForDeletion | src/pages/admin/AdminDashboardPage.tsx:189 | the trash button selects that profile |
| AdminDashboard.Page.HandleDeleteUser | src/pages/admin/AdminDashboardPage.tsx:100-112 | no selection does nothing; otherwise delete, clear the selection and reload, whatever the outcome |
| AdminDashboard.Page.HandleLogout | src/pages/admin/AdminDashboardPage.tsx:114-116 | sign out, then go to the admin login |
| DashboardStats.LowStockCountStep | src/components/dashboard/DashboardStats.tsx:45 | the count never exceeds the products, and one more product adds one iff it is low |
| DashboardStats.AlertBoundary | src/components/dashboard/DashboardStats.tsx:45 | an alert of 0 is never low, even at stock 0; stock exactly at a positive alert is |
| DashboardStats.TodayAtMostTotal | src/components/dashboard/DashboardStats.tsx:43-44 | with today's rows drawn from all rows and no negative amount, 0 <= today <= total |
| DashboardStats.RecordedSalesCounted | src/components/dashboard/DashboardStats.tsx:43 | a recorded sale adds its amount to the total sales; a compensated one leaves it |
| DashboardStats.OrphanedSaleCounted | src/components/dashboard/DashboardStats.tsx:43 | a sale whose items failed and whose delete failed is still counted |
| DashboardStats.Widget.FetchStats | src/components/dashboard/DashboardStats.tsx:22-52 | three answers give the computed figures; any error leaves them |
| LowStock.Listed | src/components/dashboard/LowStockProducts.tsx:24-29 | at most five products; a query error gives the empty list |
| LowStock.FilterKeepsAscending | src/components/dashboard/LowStockProducts.tsx:22-28 | the client filter keeps the ascending stock order |
| LowStock.ListedAreLow | src/components/dashboard/LowStockProducts.tsx:21-28 | every listed product is a store product with a positive alert and stock at or below it |
| LowStock.ListedAreLowest | src/components/dashboard/LowStockProducts.tsx:22-29 | the list keeps the query order, is a subsequence of it, and a qualifying product left out has no less stock than any listed one |
| LowStock.FewAllListed | src/components/dashboard/LowStockProducts.tsx:28-29 | with at most five qualifying, all are listed |
| LowStock.ListedMatchesCount | src/components/dashboard/LowStockProducts.tsx:21-29 | the list holds as many products as the dashboard's low-stock count, capped at five |
| LowStock.Widget.Fetch | src/components/dashboard/LowStockProducts.tsx:18-31 | the list kept is the listed products of the answer |
| ProfitStats.RowsOf | src/components/dashboard/ProfitStats.tsx:23-25 | each stored sale answers its amount and profit |
| ProfitStats.Margin | src/components/dashboard/ProfitStats.tsx:42 | margin times revenue is 100 times profit when revenue is positive, exactly 0 otherwise |
| ProfitStats.MarginBounds | src/components/dashboard/ProfitStats.tsx:42 | with revenue, the margin is non-negative iff the profit is, and at most 100 iff profit does not exceed revenue |
| ProfitStats.NullRowCountsAsZero | src/components/dashboard/ProfitStats.tsx:39-41 | a row of nulls changes no figure |
| ProfitStats.SalesMarginBounded | src/components/dashboard/ProfitStats.tsx:39-42 | when every profit lies between 0 and its amount, the margin lies between 0 and 100 |
| ProfitStats.Widget.FetchStats | src/components/dashboard/ProfitStats.tsx:22-49 | two answers give the computed figures; any error leaves them |
| PurchasesStats.ComputeAppend | src/components/dashboard/PurchasesStats.tsx:8-20 | cost and count add up over a split of the rows; no purchases gives 0 and 0 |
| PurchasesStats.RecordedPurchasesCounted | src/components/dashboard/PurchasesStats.tsx:19-20 | a recorded purchase adds its cost and one; a compensated one changes neither |
| PurchasesStats.Widget.FetchStats | src/components/dashboard/PurchasesStats.tsx:14-22 | an answer gives the computed figures; an error leaves them |
| TopProducts.NamesExactly | src/components/dashboard/TopProductsChart.tsx:24-31 | the keys are exactly the names of named items, each once |
| TopProducts.SoldUnseen | src/components/dashboard/TopProductsChart.tsx:28-29 | a name no item carries has sold nothing |
| TopProducts.UnnamedIgnored | src/components/dashboard/TopProductsChart.tsx:27 | an item without a product name changes no key and no quantity |
| TopProducts.Entries | src/components/dashboard/TopProductsChart.tsx:33 | one entry per key, with its quantity sold |
| TopProducts.InsertMultiset | src/components/dashboard/TopProductsChart.tsx:34 | inserting adds exactly that entry |
| TopProducts.InsertDescending | src/components/dashboard/TopProductsChart.tsx:34 | inserting keeps the order by quantity, largest first |
| TopProducts.InsertDistinct | src/components/dashboard/TopProductsChart.tsx:34 | inserting a new name keeps the names distinct |
| TopProducts.SortFacts | src/components/dashboard/TopProductsChart.tsx:34 | the sort is a permutation, sorted largest first, and keeps names distinct |
| TopProducts.Top | src/components/dashboard/TopProductsChart.tsx:33-35 | at most five bars |
| TopProducts.TopEntries | src/components/dashboard/TopProductsChart.tsx:24-35 | each bar is a name some item carries with its total quantity; names distinct; sorted largest first |
| TopProducts.TopOmitsNoLarger | src/components/dashboard/TopProductsChart.tsx:33-35 | a name left out means more than five names, and it sold no more than any bar |
| TopProducts.Aggregate | src/components/dashboard/TopProductsChart.tsx:24-31 | the loop builds a dictionary whose keys are the names in first-seen order, each with its quantity sold |
| TopProducts.Chart.FetchData | src/components/dashboard/TopProductsChart.tsx:14-39 | an answer gives the top bars; an error leaves them |
| PaymentMethods.KeysExactly | src/components/dashboard/PaymentMethodChart.tsx:24-27 | the keys are exactly the methods used, each once |
| PaymentMethods.CountUnseen | src/components/dashboard/PaymentMethodChart.tsx:24-27 | a method no sale used counts 0 |
| PaymentMethods.SumCountsStep | src/components/dashboard/PaymentMethodChart.tsx:24-27 | one more sale adds one to the sum over distinct keys holding its method |
| PaymentMethods.CountsAddUp | src/components/dashboard/PaymentMethodChart.tsx:24-32 | the slices' values add up to the number of sales |
| PaymentMethods.LabelKeepsKey | src/components/dashboard/PaymentMethodChart.tsx:30 | a label differs from its key only in the case of the first letter |
| PaymentMethods.OfferedLabels | src/components/dashboard/PaymentMethodChart.tsx:30 | the three offered methods are labelled Efectivo, Tarjeta and Transferencia |
| PaymentMethods.ChartData | src/components/dashboard/PaymentMethodChart.tsx:29-32 | one slice per key, in key order, with its label and its count |
| PaymentMethods.NoSalesNoSlices | src/components/dashboard/PaymentMethodChart.tsx:24-32 | no slices iff no sales |
| PaymentMethods.SlicesAreUsedMethods | src/components/dashboard/PaymentMethodChart.tsx:24-32 | every slice stands for a method some sale used and counts at least one |
| PaymentMethods.CountPositive | src/components/dashboard/PaymentMethodChart.tsx:24-27 | a method some sale used counts at least one |
| PaymentMethods.Tally | src/components/dashboard/PaymentMethodChart.tsx:24-27 | the accumulator ends with the keys in first-seen order, each with its count |
| PaymentMethods.Chart.FetchData | src/components/dashboard/PaymentMethodChart.tsx:16-35 | an answer gives the slices; an error leaves them |
| ProductSelection.FilteredExactly | src/components/pos/ProductSelection.tsx:36-40 | kept iff the lower-cased name contains the lower-cased term, or a non-empty SKU does; order preserved |
| ProductSelection.EmptyTermKeepsAll | src/components/pos/ProductSelection.tsx:36-40 | an empty search keeps every product |
| ProductSelection.TermCaseIrrelevant | src/components/pos/ProductSelection.tsx:38-39 | upper- or lower-casing the term does not change the result |
| ProductSelection.NoSkuNameOnly | src/components/pos/ProductSelection.tsx:39 | a product without a SKU is found through its name only |
| UserNav.Initials | src/components/layout/UserNav.tsx:25-28 | at most two characters; "U" for a missing or empty name |
| UserNav.InitialsOfWords | src/components/layout/UserNav.tsx:27 | the initials are the upper-cased first characters of the non-empty words, at most two |
| UserNav.SingleWordOneInitial | src/components/layout/UserNav.tsx:27 | one word gives one initial |
| UserNav.TwoWordsTwoInitials | src/components/layout/UserNav.tsx:27 | two words give two initials, whatever follows |
| UserNav.BlankNameNoInitials | src/components/layout/UserNav.tsx:26-27 | a name of spaces gives empty initials, not "U" |
| UserNav.HandleLogout | src/components/layout/UserNav.tsx:20-23 | the sign-out is done before the move to /login |
| Text.SplitJoin | src/components/layout/UserNav.tsx:27 | joining the pieces of `split` with the separator gives the string back |
| Text.LowerForgetsCase | src/components/pos/ProductSelection.tsx:38-39 | lower-casing forgets the case the string had |
| Text.ParseIntOfIntToString | src/components/pos/CurrentSale.tsx:50 | `parseInt` reads back the decimal text of every integer |
| ProductForm.ErrorsExactly | src/components/dashboard/ProductForm.tsx:27-35 | accepted iff a name, a SKU and a description that are not null, price and cost at least 0, and a whole stock and a whole alert of at least 0 |
| ProductForm.DefaultsNeedAName | src/components/dashboard/ProductForm.tsx:49-57 | of the defaults only the empty name is refused |
| ProductForm.OneWrite | src/components/dashboard/ProductForm.tsx:78-94 | without a user nothing is written; with one, exactly one update of the edited id or one insert; saved iff it succeeds |
| ProductForm.SavedRows | src/components/dashboard/ProductForm.tsx:85-94 | a refused write changes no product; an insert appends the row; an update rewrites exactly the rows with that id |
| ProductForm.NullTextRefused | src/components/dashboard/ProductForm.tsx:28-30 | an edited product with a null SKU or description is refused by the schema |
| ProductForm.Resaved | src/components/dashboard/ProductForm.tsx:32-34 | `Number(null)` is 0: the row written back has a cost and an alert, and equals the product iff both were set |
| ProductForm.UnchangedEditKeepsProducts | src/components/dashboard/ProductForm.tsx:62-94 | saving an edited product unchanged rewrites its row with a null cost or alert as 0 and keeps the rest; with both set, the products stay as they were |
| ProductForm.Form.Reseed | src/components/dashboard/ProductForm.tsx:62-76 | the form shows the edited product's values, or the defaults |
| ProductForm.Form.Submit | src/components/dashboard/ProductForm.tsx:78-103 | the store changes as the effect says; the dialog closes only on a saved write |
| PasswordForm.ErrorsExactly | src/components/dashboard/UpdatePasswordForm.tsx:19-25 | accepted iff at least six characters and confirmed; short is reported on the password, mismatch on the confirmation |
| PasswordForm.ChangedPasswordSignsIn | src/components/dashboard/UpdatePasswordForm.tsx:40-53 | after a change the user signs in with its email and the new password |
| PasswordForm.ChangeTouchesOnlyTheUser | src/components/dashboard/UpdatePasswordForm.tsx:42-44 | a change rewrites only the signed-in account's password; a refusal changes no account |
| PasswordForm.Form.Submit | src/components/dashboard/UpdatePasswordForm.tsx:40-53 | `loading` ends false whatever the answer; the form is reset only after a change |
| ProfileForm.Seed | src/components/dashboard/UpdateProfileForm.tsx:41-49 | the profile's fields, missing ones as "" |
| ProfileForm.SeedAccepted | src/components/dashboard/UpdateProfileForm.tsx:20-49 | a seeded form passes unchanged iff both names were given and non-empty |
| ProfileForm.EarlyExits | src/components/dashboard/UpdateProfileForm.tsx:51-69 | no user sends nothing; a refused profile update stops before the metadata, iff valid, a user and refused |
| ProfileForm.SameValuesBothPlaces | src/components/dashboard/UpdateProfileForm.tsx:56-78 | after both updates the profile rows and the account hold the same three values |
| ProfileForm.MetadataFailureKeepsProfile | src/components/dashboard/UpdateProfileForm.tsx:72-83 | a refused metadata update does not undo the profile write |
| ProfileForm.Form.Reseed | src/components/dashboard/UpdateProfileForm.tsx:41-49 | seeding runs only with a profile |
| ProfileForm.Form.Submit | src/components/dashboard/UpdateProfileForm.tsx:51-87 | the store changes as the effect says; `loading` ends false after the user check; values kept |

## Left out

- Rendering: markup, styling, toasts and chart drawing. Only what the components decide and
  store is modelled.
- The hosted service itself: row-level security, stock-adjusting triggers, the text of
  error messages. `Remote.Db` stands for it, with one refusal flag per call.
- Concurrency: interleaved requests, unmounting during a request, several tabs.
- The auth context (`useAuth`) is not part of this model. Its `{loading, user, profile}`
  are plain inputs, and its `signOut` is `Store.SignOut`.
- Dates and clocks: the sale and purchase dates, and the "today" window of the dashboard
  widgets. Today's rows are a second query answer; `TodayAtMostTotal` assumes they are
  drawn from all rows by some window predicate.
- Floating point: numbers are exact reals. `toFixed`, number formatting and `parseFloat`
  are not modelled; `parseInt` is, for the quantity input.
- zod internals: coercion of input to numbers, and the email regex, which is the parameter `isEmail`.
- Unicode: case mapping covers ASCII letters only, and string lengths count characters
  where JavaScript counts UTF-16 code units. So zod's `.min(6)` on the password fields and
  `substring(0, 2)` in the initials are modelled on characters: three astral characters
  pass the source's password check but not `PasswordForm.Errors`.
- UserNav.Initials: the bound of two characters holds for the ASCII case mapping only;
  JavaScript's `toUpperCase` maps "ß" to "SS", so the source gives "SSSS" for "ß ß".
- TopProducts.Item and TopProducts.Chart.FetchData: the source reads the product name as
  `item.products[0]?.name`, which assumes the join arrives as an array. When the service
  sends a many-to-one join as an object, every item is skipped and the chart is empty; the
  model assumes the array shape.
- Text.ParseInt: `parseInt` without a radix reads a `0x` prefix as hexadecimal ("0x1A" is
  26); the model reads such text as 0. A number input does not produce such text.
- Router details: case-insensitive path matching and trailing slashes.
- The admin login's branch for a sign-in without an error and without a user.
- The `delete-user-and-data` function is not part of this model. Its call is one account delete, `Db.DeleteUser`.
- Database defaults other than a request's pending status, identifiers as uuids (here a
  counter), `.single()` errors for several rows, and primary-key conflicts.
- A network failure of the function call from the admin page: the reply there is the
  function's own answer.
- Cart mutations (adding to the cart with a stock cap, changing quantities) live in a page
  that is not part of this model; the cart is an input.
- `isOpen` of the form dialogs belongs to the parent; it is a field of each form here.
- TopProducts.SortFacts: the sort is proved a permutation and sorted; that it is stable is
  modelled by its definition but not stated as a lemma.
- TopProducts.Aggregate and PaymentMethods.Tally: JavaScript objects list integer-like keys
  first. Names such as `__proto__` or inherited members (`constructor`) would behave
  differently as keys. Both are not modelled.
- ProductForm.SubmitEffect: `updated_at` is not part of the modelled row.
- ProductForm.Values: a column missing from the edited product (`undefined`, which the
  optional fields would accept) is not modelled; an edited product lists every column.
