# Shop dashboard session and bookkeeping rules, in Dafny

This project models the rules that sit under the React shop dashboard (inventory, sales, reports and
expenses for a small shop). It covers:

- the session kept in the browser's `localStorage`: the token, the user id, the guest flag and the
  per-user namespaced keys of `src/utils/auth.js`;
- the screens that read and write that session: the route guard, guest entry, the OAuth callback,
  completing a social login with an e-mail, the login form and choosing a shop category;
- the list operations of the four bookkeeping screens:
  - the guest inventory with its two-item cap and its low-stock rule;
  - the sale form, its stock check, its totals and its barcode merge;
  - the monthly report, with per-product totals, the top ten by revenue and the daily revenue series;
  - the expense form, with its total and average;
- the build script `scripts/patch-fs-fok.js`, which rewrites `fs.F_OK` to `fs.constants.F_OK` in
  every `.js` file of a tree.

One Dafny module per source file:

| file | module | source |
|---|---|---|
| js_text.dfy | JsText | JavaScript string helpers used throughout: truthiness, `a \|\| b`, `startsWith`, `endsWith`, `includes`, `trim`, decimal `parseInt`/`parseFloat`, `String(n)`, `join` |
| local_storage.dfy | Storage | the browser store, a `map<string, string>` held by a `LocalStorage` object |
| routing.dfy | Routing | navigation targets (`navigate(path, { replace })`) |
| auth.dfy | Auth | src/utils/auth.js |
| protected_route.dfy | ProtectedRoute | src/components/ProtectedRoute.js |
| guest_entry.dfy | GuestEntry | src/components/GuestEntry.js |
| oauth_handler.dfy | OAuthHandler | src/components/OAuthHandler.js |
| social_email.dfy | SocialEmail | src/components/SocialEmail.js |
| login.dfy | Login | src/components/Login.js |
| category_selection.dfy | CategorySelection | src/components/CategorySelection.js |
| inventory.dfy | Inventory | src/components/Inventory.js (guest mode) |
| sales.dfy | Sales | src/components/Sales.js |
| reports.dfy | Reports | src/components/Reports.js |
| expenses.dfy | Expenses | src/components/Expenses.js |
| patch_fs_fok.dfy | PatchFsFok | scripts/patch-fs-fok.js |

Server answers, confirmation dialogs, the clock and the directory tree are parameters of the
operations that use them. A React component becomes a `class` whose fields are its `useState` values.
Each handler becomes a method. The method's `ensures` ties the new state to a specification function,
and lemmas prove what the screen promises about that function. Loops of the source stay loops:
- the two-phase `clearUserData`;
- `calculateSaleTotals` and the stock check;
- the monthly aggregation with its product dictionary;
- the daily buckets over an `array`;
- the patch loop over the files.

`isGuestMode` is imported by the route guard and the reports screen, but its definition is not part
of this model. It is modelled as the assumption that the store holds `guest_mode` with the value
`"true"`. That is the only value `GuestEntry` writes.

## Model

| member | source | states |
|---|---|---|
| JsText.Includes | scripts/patch-fs-fok.js:29 | `includes` holds iff the needle occurs at some position |
| JsText.TrimSpec | src/components/Inventory.js:113-118 | `trim` removes exactly the leading and trailing white space (the ECMAScript set: tab, line and paragraph breaks, vertical tab, form feed, space, no-break space, the Unicode space separators and the byte-order mark): the result is a slice, all cut characters are spaces, and its ends are not |
| JsText.LeadingDigitsSpec | src/components/Sales.js:82-89 | `parseInt` reads the longest run of digits at the start of the text |
| JsText.ParseIntOfIntToString | src/components/Inventory.js:32-37 | a whole number written with `String(n)` reads back as `n` with `parseInt` |
| JsText.ParseFloatOfIntToString | src/components/Expenses.js:32 | a whole number written as text reads back as the same number with `parseFloat` |
| JsText.Join | scripts/patch-fs-fok.js:30 | `join` of no parts is empty, of one part is that part, and otherwise starts with the first part |
| JsText.JoinParts | scripts/patch-fs-fok.js:30 | `join` lays out every part in order: part `k` stands at the summed length of the earlier parts and separators, a separator follows each part but the last, and the text ends with the last part |
| Auth.GetUserData | src/utils/auth.js:17-21 | the default is returned when the namespaced entry is absent or empty; `JSON.parse` throws only on a stored entry that does not decode |
| Auth.SetUserData | src/utils/auth.js:24-27 | the namespaced key gets the encoded value; nothing else changes |
| Auth.RemoveUserData | src/utils/auth.js:30-33 | only the namespaced key for `key` is deleted |
| Auth.ClearUserData | src/utils/auth.js:36-50 | the collect-then-remove loops leave exactly the store described by `Cleared` |
| Auth.Cleared | src/utils/auth.js:36-50 | `userId` and exactly the keys starting with `user_<id>_` are removed; every remaining entry keeps its value |
| Auth.SignedOut | src/components/Expenses.js:92-96 | logging out keeps exactly the keys that `clearUserData` keeps, minus `token`, each with its old value; so the user's namespace, `userId` and the token are gone and `guest_mode` is as it was |
| Auth.IsAuthenticatedSpec | src/utils/auth.js:1-3 | a session is signed in iff a `token` entry is stored and is not the empty string |
| Auth.UserDataRoundTrip | src/utils/auth.js:17-27 | `getUserData(k)` after `setUserData(k, v)` under the same user returns `v` |
| Auth.UserKeyInjective | src/utils/auth.js:11-14 | under one user, distinct keys have distinct namespaced keys |
| Auth.PrefixedKeysDiffer | src/utils/auth.js:11-14 | the same key under two user ids gives the same namespaced key only when the ids are equal |
| Auth.NamespacesIsolated | src/utils/auth.js:11-27 | data written for one user is not seen by another user under the same key |
| Auth.ClearKeepsSessionKeys | src/utils/auth.js:36-50 | clearing keeps `token` and `guest_mode` |
| Auth.ClearWithoutUser | src/utils/auth.js:37-49 | with no user id stored, clearing removes only the `userId` entry |
| Auth.ClearIdempotent | src/utils/auth.js:36-50 | clearing twice is the same as clearing once |
| ProtectedRoute.Decide | src/components/ProtectedRoute.js:19-33 | `null` shows only the placeholder, `false` redirects to `/login` with replace, and `true` renders the children |
| ProtectedRoute.Guard.constructor | src/components/ProtectedRoute.js:6 | the guard starts undecided |
| ProtectedRoute.Guard.CheckAuth | src/components/ProtectedRoute.js:12-16 | the state becomes token present or guest flag set, and never `null` again |
| ProtectedRoute.CheckedView | src/components/ProtectedRoute.js:12-33 | after the check, children render iff authenticated or in guest mode, and otherwise the guard redirects |
| ProtectedRoute.TokenTakesPrecedence | src/components/ProtectedRoute.js:15 | with a token the guard renders, whatever the guest flag says |
| GuestEntry.EnterGuestMode | src/components/GuestEntry.js:8-11 | `guest_mode` is set to `"true"` and the screen goes to `/dashboard` with replace |
| GuestEntry.GuestEntryGrantsAccess | src/components/GuestEntry.js:8-11 | after entering, the guard renders; `token`, `userId` and every other key are untouched |
| OAuthHandler.CallbackTarget | src/components/OAuthHandler.js:19-50 | an error goes to `/login?error=…`; a pending token goes to `/social-email` carrying the token; otherwise `/dashboard` iff the category is valid and selection is complete, else `/select-category`; all with replace |
| OAuthHandler.CallbackWrites | src/components/OAuthHandler.js:19-40 | nothing is stored on an error or a pending token; otherwise `token` and `userId` are stored each only when present |
| OAuthHandler.HandleCallback | src/components/OAuthHandler.js:10-50 | the effect writes exactly `CallbackWrites` and navigates to `CallbackTarget` |
| OAuthHandler.ErrorTakesPrecedence | src/components/OAuthHandler.js:19-22 | an error wins over a token or a pending token |
| OAuthHandler.PendingTokenStoresNothing | src/components/OAuthHandler.js:25-33 | with a pending token and no error, the target is the e-mail page for that token and nothing is stored |
| SocialEmail.ApiUrl | src/components/SocialEmail.js:5-7 | the API base is `/api` by default; otherwise the configured URL with its trailing slashes removed, then `/api` |
| SocialEmail.PendingToken | src/components/SocialEmail.js:15 | the pending token is `token`, falling back to `pendingToken` |
| SocialEmail.ProviderName | src/components/SocialEmail.js:16 | the provider defaults to `"facebook"` |
| SocialEmail.DisplayName | src/components/SocialEmail.js:17 | the display name defaults to `"your account"` |
| SocialEmail.MountRedirect | src/components/SocialEmail.js:19-23 | the page redirects to `/login` with replace iff there is no pending token |
| SocialEmail.CompletionWrites | src/components/SocialEmail.js:37-43 | `token` is stored only when the answer has one, and `userId` only when `user.id` is present; nothing else changes |
| SocialEmail.CompletionTarget | src/components/SocialEmail.js:45-46 | `/dashboard` iff `user.shopCategory` is truthy, else `/select-category`, with replace |
| SocialEmail.RejectionMessage | src/components/SocialEmail.js:48-49 | the server's `error`, or the fixed fallback message |
| SocialEmail.SocialEmailPage.constructor | src/components/SocialEmail.js:12-13 | empty e-mail, not loading, no error |
| SocialEmail.SocialEmailPage.HandleSubmit | src/components/SocialEmail.js:25-54 | without a pending token nothing happens; on success the writes and target above; on failure the message, loading ends, and nothing is stored |
| SocialEmail.CompletionSignsIn | src/components/SocialEmail.js:37-43 | a completion that returns a token signs the user in under the returned id |
| Login.ApiUrl | src/components/Login.js:6 | the configured URL, or the local default |
| Login.SocialLoginUrl | src/components/Login.js:28-31 | the social login URL is the API URL, then `/auth/`, then the provider |
| Login.StripFragment | src/components/Login.js:22-25 | one trailing `#_=_` is removed, and only when present |
| Login.CleanedUrl | src/components/Login.js:22-25 | the address is rewritten iff the hash is exactly `#_=_` |
| Login.ChosenUserId | src/components/Login.js:47-50 | `user.id`, else `userId`; present iff either is present |
| Login.LoginWrites | src/components/Login.js:44-50 | the token is stored (as text, so a missing token becomes `"undefined"`); `userId` only when chosen; nothing else changes |
| Login.LoginTarget | src/components/Login.js:53-59 | `/dashboard` iff `user.category` or `category` is truthy, else `/select-category` |
| Login.LoginPage.constructor | src/components/Login.js:9-10 | empty form, not loading, no error |
| Login.LoginPage.ApplyQuery | src/components/Login.js:16-19 | an `error` query parameter becomes the displayed error |
| Login.LoginPage.HandleChange | src/components/Login.js:33-36 | only the named field changes, and the error is cleared |
| Login.LoginPage.HandleSubmit | src/components/Login.js:38-67 | on success the store gets `LoginWrites` and the screen goes to `LoginTarget`; on failure the error is set, loading ends, and there is no navigation |
| Login.LoginSignsIn | src/components/Login.js:44 | the user is signed in iff the stored token text is non-empty; a missing token is stored as `"undefined"` |
| Login.StripFragmentOnce | src/components/Login.js:22-25 | only one of two trailing fragments is removed |
| CategorySelection.ApiUrl | src/components/CategorySelection.js:7 | trailing slashes of the base are removed before `/api` is appended |
| CategorySelection.Classify | src/components/CategorySelection.js:55-78 | 404 or "Cannot" means the endpoint is missing, checked before 401/403 or "access denied", which mean the session is invalid; any other failure takes the message chain `error`, `message`, `err.message`, default |
| CategorySelection.SelectOutcome | src/components/CategorySelection.js:23-82 | with no token: the auth error and `/login`, with nothing written; with data: the namespaced category and `/dashboard`; endpoint missing: stored locally and `/dashboard`; session invalid: only `token` is removed and the screen goes to `/login`; otherwise the message |
| CategorySelection.CategoryPage.constructor | src/components/CategorySelection.js:10-12 | no category, not loading, no error |
| CategorySelection.CategoryPage.HandleCategorySelect | src/components/CategorySelection.js:23-82 | the store, error and navigation are those of `SelectOutcome`, and loading is false on every path |
| CategorySelection.CategoryIcon | src/components/CategorySelection.js:176-185 | an unknown category gets the default shop icon |
| CategorySelection.IconsDistinct | src/components/CategorySelection.js:176-185 | distinct known categories get distinct icons |
| CategorySelection.SelectionStored | src/components/CategorySelection.js:50-53 | after a successful update, `getUserData("userCategory")` reads the chosen category and the screen goes to `/dashboard` |
| CategorySelection.ExpiredSessionKeepsUser | src/components/CategorySelection.js:59-66 | an expired session signs out but keeps `userId` |
| Inventory.BuildFormState | src/components/Inventory.js:5-19 | overrides win, other fields are empty, and the threshold defaults to `"5"` |
| Inventory.ResolvedProductNumber | src/components/Inventory.js:120-133 | a blank product number falls back to the edited product's, else it is omitted |
| Inventory.BuildDraft | src/components/Inventory.js:113-133 | a blank trimmed barcode is absent; numbers are parsed; a blank threshold is absent |
| Inventory.Merge | src/components/Inventory.js:149-152 | an edit keeps the product's `_id` and `id`, takes the draft's name, barcode, brand, category, quantity, prices and threshold, and its product number only when the draft has one |
| Inventory.NewGuestProduct | src/components/Inventory.js:153-159 | a created guest product has no `_id`, the generated `id`, and every field of the draft: name, product number, barcode, brand, category, quantity, prices and threshold |
| Inventory.MergeByKey | src/components/Inventory.js:149-152 | the length is kept; exactly the items with the edited `_id \|\| id` are merged |
| Inventory.RemoveByKey | src/components/Inventory.js:218-221 | exactly the items with the given `_id \|\| id` are removed; one item is kept or dropped by its key |
| Inventory.RemoveByKeyAppend | src/components/Inventory.js:218-221 | the filter goes item by item: on a concatenation it is the filter of each part, so kept items keep their order and multiplicity |
| Inventory.GuestSave | src/components/Inventory.js:138-161 | a create is refused iff the list already holds 2 items; an edit merges by key; a create appends one product |
| Inventory.GuestSaveKeepsLimit | src/components/Inventory.js:138-146 | saving never takes a list within the cap over the cap |
| Inventory.EditKeepsKeys | src/components/Inventory.js:149-152 | an edit keeps every item's key and leaves the other items as they were |
| Inventory.InitialGuestCount | src/components/Inventory.js:32-37 | the counter is 0 outside guest mode or with nothing stored, else the stored number (0 when it does not parse) |
| Inventory.GuestCountPersists | src/components/Inventory.js:32-37 | a stored count reads back as the same number |
| Inventory.LowStock | src/components/Inventory.js:90 | the low-stock list is exactly the items with quantity at most their threshold; one item is kept iff it is low |
| Inventory.LowStockAppend | src/components/Inventory.js:90 | the filter goes item by item, keeping order and multiplicity |
| Inventory.DefaultThreshold | src/components/Inventory.js:90 | with no threshold, an item is low iff its quantity is at most 5 |
| Inventory.Signed | src/components/Inventory.js:274 | the delta is written with its sign and reads back as the delta |
| Inventory.DeltaText | src/components/Inventory.js:272-274 | a delta is shown iff both values are numbers |
| Inventory.FieldLine | src/components/Inventory.js:268-279 | a line is `field: before -> after`, with `-` for a missing value, and the signed delta in parentheses appended exactly for `quantity` |
| Inventory.ChangeLines | src/components/Inventory.js:268-279 | one line per changed field, in the recorded order |
| Inventory.FormatChangeDetails | src/components/Inventory.js:261-281 | `"Deleted"` iff a delete; `"-"` iff no changed fields; otherwise the lines of the changed fields joined by `"; "` |
| Inventory.ChangeDetailsLine | src/components/Inventory.js:268-280 | in the details of an edit, the line of the `k`-th changed field stands at its place, followed by `"; "` unless it is the last |
| Inventory.InventoryPage.constructor | src/components/Inventory.js:22-37 | the form starts from `BuildFormState`, with the counter read from the store |
| Inventory.InventoryPage.Reload | src/components/Inventory.js:46-100 | in guest mode the lists are the stored list and its low-stock part |
| Inventory.InventoryPage.HandleSubmit | src/components/Inventory.js:110-191 | the guest save of the built draft: refused over the cap with every field and the store unchanged (the list, `products` and `lowStock` included), otherwise the list, the counter and the store are updated and the form is reset |
| Inventory.InventoryPage.Save | src/components/Inventory.js:138-176 | the guest branch of saving a draft: a create at the cap changes no field and nothing in the store; otherwise the list is saved, reloaded into `products` and `lowStock`, a create counts one more and stores the counter, and the form resets |
| Inventory.InventoryPage.HandleDelete | src/components/Inventory.js:215-233 | a confirmed delete removes by key, refreshes the lists, and keeps the counter |
| Inventory.DeleteFreesRoom | src/components/Inventory.js:138-146 | at the cap a create is refused, and deleting any item makes room for it |
| Sales.ProductIndex | src/components/Sales.js:109-114 | the first product with the row's id, or none |
| Sales.FindProduct | src/components/Sales.js:109-114 | `find` returns a product with that id, and none only when no product has it |
| Sales.ValidRows | src/components/Sales.js:82-89 | exactly the rows with a product and a quantity above 0; one row is kept iff it is valid |
| Sales.ValidRowsAppend | src/components/Sales.js:82-89 | the filter goes row by row, keeping order and multiplicity |
| Sales.ProfitIsRevenueLessCost | src/components/Sales.js:60-76 | profit is revenue less cost |
| Sales.RevenueAppend | src/components/Sales.js:60-76 | revenue adds up over the parts of a sale |
| Sales.UnknownRowAddsNothing | src/components/Sales.js:60-76 | a row whose product is not found contributes 0 |
| Sales.CalculateSaleTotals | src/components/Sales.js:60-76 | the loop computes Σ price·qty and Σ (price − cost)·qty |
| Sales.CheckStock | src/components/Sales.js:92-103 | the flag is set iff some valid row asks for more than its product's stock |
| Sales.SaleLines | src/components/Sales.js:109-126 | building lines succeeds iff every row's product is in the catalogue; then there is one line per row, with the row's id and parsed quantity |
| Sales.SaleLinesContents | src/components/Sales.js:109-126 | line `j` is exactly the record sent for row `j`: its id and parsed quantity, and the found product's `productNumber \|\| ''`, `brand \|\| ''`, name, category, selling and cost price |
| Sales.LinesMatchRevenue | src/components/Sales.js:106-126 | the sale's total revenue is the sum over the lines it sends |
| Sales.CheckSubmitSpec | src/components/Sales.js:82-114 | no valid rows, short stock and a missing product each stop the submit, in that order |
| Sales.Check | src/components/Sales.js:82-114 | the handler's checks compute `CheckSubmit` |
| Sales.RowIndex | src/components/Sales.js:260-262 | the first row for the product, or none |
| Sales.MergeScan | src/components/Sales.js:260-269 | an existing row gets quantity + 1, else a row with `"1"` is appended |
| Sales.ScanCountsOne | src/components/Sales.js:260-269 | a scan adds exactly one to the product's quantity as the form reads it |
| Sales.AddProduct | src/components/Sales.js:255-258 | the product is added only when no product with its id exists |
| Sales.SalesPage.constructor | src/components/Sales.js:7-16 | one empty row, method `'pos'`, no customer, form hidden |
| Sales.SalesPage.HandleAddProductRow | src/components/Sales.js:45-47 | one empty row is appended; products, the form flag, the edited id, date, selling method, customer name and barcode input are unchanged |
| Sales.SalesPage.HandleRemoveProductRow | src/components/Sales.js:49-52 | exactly the row at the index is removed (none when out of range); every other field is unchanged |
| Sales.SalesPage.HandleProductChange | src/components/Sales.js:54-58 | only the named field of that row changes; every other row and every other field is unchanged |
| Sales.SalesPage.HandleSubmit | src/components/Sales.js:78-183 | the checks stop the submit and change nothing; a saved sale replaces the products with the reloaded list (`[]` when the reload fails) and resets the form as on create or edit |
| Sales.SalesPage.ResetAfterSave | src/components/Sales.js:140-170 | after a save the rows are one empty row, the method is `pos`, the date is today and the form is hidden; an update clears the edited id and keeps the customer name, a creation clears the customer name; the products are the list `fetchSalesAndProducts` reloads, or `[]` when it fails or is not an array; the barcode input is unchanged |
| Sales.SalesPage.HandleCancel | src/components/Sales.js:208-216 | the form is reset to one empty row, `'pos'`, no customer, and hidden |
| Sales.SalesPage.HandleBarcodeSubmit | src/components/Sales.js:240-281 | a blank code does nothing; otherwise the input is cleared, and a found product is merged into the rows and products and the form is shown; the edited id, customer name, date and selling method are unchanged |
| Sales.HandleLogout | src/components/Sales.js:218-222 | the store is signed out and the screen goes to `/login` |
| Reports.DaysInMonth | src/components/Reports.js:167 | 28 to 31 days, with 29 in February iff a leap year |
| Reports.MonthlySales | src/components/Reports.js:95-98 | a filter: never longer than the sales; one sale is kept iff it is dated in the current month |
| Reports.MonthlySalesAppend | src/components/Reports.js:95-98 | the filter goes sale by sale, keeping order and multiplicity |
| Reports.MonthlySalesSpec | src/components/Reports.js:95-98 | a sale is kept iff it is dated in the current month and year |
| Reports.MonthlyExpenses | src/components/Reports.js:129-132 | a filter: never longer than the expenses; one expense is kept iff it is dated in the current month |
| Reports.MonthlyExpensesAppend | src/components/Reports.js:129-132 | the filter goes expense by expense, keeping order and multiplicity |
| Reports.MonthlyExpensesSpec | src/components/Reports.js:129-132 | an expense is kept iff it is dated in the current month and year |
| Reports.AddItemsWellFormed | src/components/Reports.js:114-124 | the dictionary's insertion order lists each key once |
| Reports.TallyWellFormed | src/components/Reports.js:106-127 | the same, over all sales |
| Reports.AddItemsTotals | src/components/Reports.js:114-124 | a product's entry grows by its quantity and by price·qty over the lines |
| Reports.TallyTotals | src/components/Reports.js:106-127 | a product's entry holds Σ qty and Σ price·qty over every line for it |
| Reports.Values | src/components/Reports.js:136 | `Object.values` lists each entry once, in insertion order |
| Reports.DistinctKeysCount | src/components/Reports.js:136 | there are as many values as keys |
| Reports.InsertAt | src/components/Reports.js:137 | the insertion point is after the entries earning at least as much |
| Reports.Insert | src/components/Reports.js:137 | insertion adds exactly the element |
| Reports.InsertDescending | src/components/Reports.js:137 | insertion keeps the order descending |
| Reports.SortByRevenue | src/components/Reports.js:137 | sorting is a permutation |
| Reports.SortByRevenueSpec | src/components/Reports.js:137 | the sorted list is descending by revenue |
| Reports.Take | src/components/Reports.js:138 | `slice(0, 10)` is the prefix of at most that length |
| Reports.TakeOfDescending | src/components/Reports.js:137-138 | a prefix of a descending list is descending and outranks the rest |
| Reports.TopMembers | src/components/Reports.js:136-138 | each top product is a dictionary entry |
| Reports.TopOutranks | src/components/Reports.js:136-138 | no entry left out earned more than one kept |
| Reports.TopSpec | src/components/Reports.js:136-138 | at most 10 entries, all of them when there are at most 10, descending, and no better entry left out |
| Reports.TopProductsSpec | src/components/Reports.js:106-138 | the top products are the top of the well-formed monthly dictionary |
| Reports.SumAdd | src/components/Reports.js:171-177 | adding to one bucket adds to the total |
| Reports.Buckets | src/components/Reports.js:167-177 | one bucket per day of the month |
| Reports.BucketsByDay | src/components/Reports.js:167-177 | the bucket of day `d` holds the summed `totalRevenue \|\| 0` of the sales dated on day `d` of the current month |
| Reports.BucketsTotal | src/components/Reports.js:162-180 | the buckets add up to the month's revenue |
| Reports.ZerosSum | src/components/Reports.js:169 | the series starts at zero |
| Reports.OtherMonthsIgnored | src/components/Reports.js:171-177 | a sale from another month changes no bucket |
| Reports.DailySales | src/components/Reports.js:162-180 | the in-place fill of the array computes `Buckets` |
| Reports.ReduceAsWrittenOfNumbers | src/components/Reports.js:134 | as written, the reduce adds amounts that arrive as numbers |
| Reports.TextAmountsConcatenate | src/components/Reports.js:134 | as written, amounts that arrive as text are concatenated |
| Reports.DigitsOf01230 | src/components/Reports.js:140 | the concatenated text reads as 1230 |
| Reports.ReduceCorrectedSums | src/components/Expenses.js:32 | reading each amount as a number first gives their sum, whether it arrived as a number or as its text |
| Reports.TallyItems | src/components/Reports.js:111-124 | the loop over one sale's lines adds their cost to the cost of goods sold and adds each line to the product dictionary as the specification `AddItems` does |
| Reports.MonthlySummary | src/components/Reports.js:81-150 | the loops compute count, revenue, profit, expenses plus cost of goods, net profit = profit − expenses, and the top products of the month |
| Reports.ReportsPage.constructor | src/components/Reports.js:24-28 | no data, loading, no error, not a guest |
| Reports.ReportsPage.Mount | src/components/Reports.js:31-79 | a guest gets the seeded report and no fetch; otherwise every figure of the monthly summary of the answer (count, revenue, profit, expenses, net profit, top products, product count) and its daily series, or its error message |
| Reports.ReportsPage.HandleLogout | src/components/Reports.js:273-282 | a guest loses only `guest_mode` and goes to `/`; otherwise the store is signed out and the screen goes to `/login` |
| Expenses.AddNumbers | src/components/Expenses.js:32 | a sum is a number iff both terms are (NaN spreads) |
| Expenses.Amounts | src/components/Expenses.js:32 | one amount per expense, in order: the `parseFloat` of that expense's amount |
| Expenses.SumIsNumber | src/components/Expenses.js:32 | a sum is a number iff every term is |
| Expenses.TotalIsNumber | src/components/Expenses.js:32 | the total is a number iff every amount parses (an empty amount counts as 0) |
| Expenses.SumAppend | src/components/Expenses.js:32 | sums add up over concatenation |
| Expenses.TotalAppend | src/components/Expenses.js:32 | the total adds up over concatenation |
| Expenses.SumOfWholes | src/components/Expenses.js:32 | whole-number amounts sum to their integer sum |
| Expenses.TotalOfWholeAmounts | src/components/Expenses.js:32 | amounts written as whole numbers total to their sum |
| Expenses.WholeAmount | src/components/Expenses.js:32 | an amount written as `String(n)` is read as `n` |
| Expenses.Quotient | src/components/Expenses.js:172 | total / count, times count, gives back the total |
| Expenses.AverageSpec | src/components/Expenses.js:172 | the average is 0 for no expenses, and otherwise total / count |
| Expenses.WithField | src/components/Expenses.js:34-37 | only the named field changes |
| Expenses.RequestFor | src/components/Expenses.js:48-54 | an update iff an id is being edited, otherwise a create with the date |
| Expenses.ExpensesPage.constructor | src/components/Expenses.js:7-11 | an empty form, no edit, loading, the form shown |
| Expenses.ExpensesPage.FetchExpenses | src/components/Expenses.js:18-30 | the list is the answer's list; a failure alerts and empties it |
| Expenses.ExpensesPage.HandleInputChange | src/components/Expenses.js:34-37 | the form takes `WithField` |
| Expenses.ExpensesPage.HandleSubmit | src/components/Expenses.js:39-63 | an incomplete form is refused with an alert and nothing else changes; otherwise `RequestFor` is sent; a failed save alerts and changes nothing else; a save reloads the list (alerting when the reload fails), empties the form, clears the edit, hides the form and ends loading |
| Expenses.ExpensesPage.HandleEdit | src/components/Expenses.js:65-73 | the three fields are loaded, the edit id is `_id \|\| id`, and the form is shown |
| Expenses.ExpensesPage.HandleCancelEdit | src/components/Expenses.js:86-90 | no edit, an empty form, hidden |
| Expenses.ExpensesPage.HandleLogout | src/components/Expenses.js:92-96 | the store is signed out and the screen goes to `/login` |
| PatchFsFok.IndexOf | scripts/patch-fs-fok.js:30 | the first occurrence of the separator, or proof there is none |
| PatchFsFok.Split | scripts/patch-fs-fok.js:30 | `split` gives at least one piece |
| PatchFsFok.SplitPiecesClean | scripts/patch-fs-fok.js:30 | no piece contains the separator |
| PatchFsFok.SplitJoin | scripts/patch-fs-fok.js:30 | joining the pieces with the separator gives back the text |
| PatchFsFok.SplitWithout | scripts/patch-fs-fok.js:29-30 | text without the separator splits into itself |
| PatchFsFok.PatchRemovesNeedle | scripts/patch-fs-fok.js:29-30 | after rewriting, the text contains no `fs.F_OK` |
| PatchFsFok.PatchIdempotent | scripts/patch-fs-fok.js:29-30 | rewriting twice is rewriting once |
| PatchFsFok.PatchWithoutNeedle | scripts/patch-fs-fok.js:29 | text without `fs.F_OK` is unchanged |
| PatchFsFok.JoinNoNeedle | scripts/patch-fs-fok.js:30 | joining clean pieces with `fs.constants.F_OK` creates no `fs.F_OK` |
| PatchFsFok.WalkOnlyScripts | scripts/patch-fs-fok.js:4-20 | the walk collects only paths ending in `.js` |
| PatchFsFok.WalkFindsScripts | scripts/patch-fs-fok.js:4-20 | a file is collected iff it is a `.js` file somewhere in the tree; directories that cannot be listed and entries whose `stat` fails contribute nothing |
| PatchFsFok.WalkAppend | scripts/patch-fs-fok.js:4-20 | the listing is visited in order: the files of a listing are those of its first part followed by those of the rest |
| PatchFsFok.WritesSpec | scripts/patch-fs-fok.js:26-38 | only writable files containing `fs.F_OK` are written, each with its rewritten content |
| PatchFsFok.WritesEveryRewrite | scripts/patch-fs-fok.js:26-38 | every collected file that reads, contains `fs.F_OK` and is writable gets its rewritten content written |
| PatchFsFok.WritesCount | scripts/patch-fs-fok.js:26-38 | there is one write per such file, so the count equals the number of collected files that are rewritten |
| PatchFsFok.PatchFiles | scripts/patch-fs-fok.js:22-40 | a missing root does nothing; otherwise the writes of the walked files, and `patched` is the number of walked files that are rewritten |
| PatchFsFok.AfterRunAll | scripts/patch-fs-fok.js:26-38 | each file's content after a run |
| PatchFsFok.WalkAfterRun | scripts/patch-fs-fok.js:4-38 | walking the rewritten tree finds the rewritten files |
| PatchFsFok.NothingLeftToRewrite | scripts/patch-fs-fok.js:29-30 | after a run no file needs rewriting |
| PatchFsFok.SecondRunWritesNothing | scripts/patch-fs-fok.js:22-40 | a second run over the rewritten tree writes nothing |

## Left out

- `isGuestMode` is not defined in `src/utils/auth.js`; it is modelled as `guest_mode == "true"`, an assumption.
- JSON encoding is modelled as quoting a string value; `JSON.stringify` of objects and arrays is not modelled.
- `Auth.GetUserData` decodes only a quoted JSON string. Other valid JSON such as `42`, `true` or an object, which `JSON.parse` returns as a value, is a `ParseThrows` outcome in the model.
- `parseInt` and `parseFloat` are modelled for decimal text only. Hexadecimal, exponents, `Infinity` and rounding to binary floating point are not modelled, and money is a `real`.
- All HTTP calls, `alert`, `window.confirm`, `window.location` and `window.history` are left out. Server answers and confirmations are parameters; alerts are a field or an outcome value.
- The two-second `setTimeout` before the redirect in the category screen is modelled as an immediate navigation.
- URL encoding of query parameters is left out; parameters are carried as plain text in the navigation target.
- Dates are given as calendar days in local time. `new Date` parsing, time zones, `toISOString` and locale formatting are not modelled.
- Rendering, chart labels and colours, PDF and spreadsheet export, and the "last 7 days" tab of the inventory are left out.
- `Inventory.InventoryPage.HandleSubmit` requires guest mode: the signed-in branch only calls the server and reloads, so it is left out.
- `Inventory.InventoryPage.Save` requires guest mode, for the same reason.
- `Inventory.InventoryPage.HandleDelete` requires guest mode; the signed-in delete is a server call.
- `Inventory.InventoryPage.HandleSubmit`, `Save` and `HandleDelete` keep the guest list in the field `guestInventory`, which stands for the decoded `guest_inventory` entry. The rewrite of that entry (src/components/Inventory.js:160 and 221) therefore does not show up in `ls.entries`.
- `Inventory.InventoryPage.Reload` models the guest reload only; the signed-in fetches of products, history and low stock are server calls.
- Sales: the numeric `id` and `parseInt(productId)` fallbacks when finding a product are left out; products are found by their `_id` text.
- Sales: `handleEdit`, `handleDelete`, the sale history and the initial fetch are server calls and are left out. The product reload after a save is an input answer; the sales list it also reloads, its `loading` flag and the alerts are not modelled.
- Expenses: `handleDelete` is a server call and is left out. The reload after a save is an input answer.
- Expenses: an absent amount is represented as the empty text.
- `Expenses.ExpensesPage.HandleSubmit` and `HandleEdit` hold the amount as text, as the form posts it. A server amount that arrives as a number is represented by its decimal text. So a numeric 0 copied into the form by `handleEdit` becomes the text `"0"`, which the model sends, while `!formData.amount` at src/components/Expenses.js:42 refuses the number 0.
- Reports: keys of `productSalesMap` that collide with `Object.prototype` names, and `Object.values` putting integer-like keys first, are not modelled. Insertion order is used.
- Reports: the order among products with equal revenue after the sort is not stated.
- `Reports.MonthlySummary` takes every expense amount to arrive as a number (`ReportExpense.amount` is a number). Amounts sent as text are covered by the finding at src/components/Reports.js:134, through `Reports.ReduceAsWritten` and `Reports.ReduceCorrected`.
- `CategorySelection.CategoryIcon`: lookups of inherited object properties such as `"constructor"` are not modelled.
- Patch script: the file system is a given tree. An entry whose `stat` fails is an `Other` node, a directory whose listing fails is an `Unlistable` one, a file that cannot be written is one with `writable` false, and a failed root listing is `RootFailed`. Symbolic links are not modelled, neither shared files nor cycles: `fs.statSync` follows a link, so the script can reach one file by two paths and rewrites it once, while a tree with two `File` nodes for it counts two rewrites. Console output is not modelled either.

## Findings

| source | as written | input that shows it | evidently intended | confidence | as-written member | corrected member |
|---|---|---|---|---|---|---|
| src/components/Reports.js:134 | the monthly expenses are summed with `sum + (e.amount \|\| 0)`, with no `parseFloat`, unlike the total in src/components/Expenses.js:32 | two expenses of the month whose amounts the server sends as the texts `"12"` and `"30"`: the reduce gives the text `"01230"`, so the net profit subtracts 1230 and the reported expenses are joined as text | the amounts are read as numbers and total 42 | medium: depends on the server sending amounts as text; not executed | Reports.TextAmountsConcatenate | Reports.ReduceCorrectedSums |
