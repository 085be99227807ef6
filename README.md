# Dental-lab management: verified model of the client core

This project is a Dafny model of the client side of a dental-laboratory management application, written in React with an Express backend. The application tracks clients, products (prosthetics with a price), suppliers and work orders. Each work order has a patient, line items, a due date and a status from Recibido to Entregado. Around these the application has a chat assistant, a financial dashboard and a role-gated backend.

The model covers these parts of the application:

- **The application store** (`Reducer`, `Store`). `appReducer` is a total transition function over the application state. The action creators of `AppProvider` await the backend and only then dispatch. They become the methods of class `Store.AppStore`, and each backend answer is a `Result`/`Outcome` parameter. The session kept in local storage is the ghost field `persisted`.
- **Order totals and financial aggregation** (`Financials`, `OrderList`, `Notification`). The order total is the sum of price × quantity over the line items, and a product that cannot be found counts as 0. The same formula appears in three screens. The notification's copy is the same text as the order list's and is modelled once, as `OrderList.CalculateOrderTotal`; that copy is proved equal to the financial screen's, which also turns a zero price into 0 with `|| 0`. On top of the total, the financial screen adds:
  - the order filter;
  - the revenue/order-count KPIs, computed by a loop over the filtered orders;
  - the per-month revenue buckets, built in a map and then listed in ascending key order.
- **The order form** (`OrderForm`). Quantities are clamped to at least 1. At least one line item is always kept. Lines without a product are dropped on submit, and the submit is refused when none remain.
- **Small decisions**:
  - the backend role gate (`Authorize`);
  - the route guard and header title (`App`);
  - the dashboard's pending count and five latest orders (`Dashboard`, with the due-date sort in `OrderSort`);
  - the password-change form (`ChangePassword`);
  - the chat submit guard, with JavaScript's `trim` (`Chatbot`, `Text`).

Prices are integers (cents), and due dates are integer millisecond timestamps. A calendar day is an integer day number whose bounds are `DayStart`/`DayEnd`. The source's `YYYY-MM` month string is an abstract `(year, month)` key, obtained from a `monthOf` parameter that stands for local-time `Date` arithmetic.

Three behaviours of the source that the model keeps:
- `AUTH_ERROR` also removes the persisted session from local storage (src/context/AppContext.tsx:51), like `LOGOUT`.
- When the data fetch after a successful login fails, `login` dispatches `AUTH_ERROR` after `LOGIN_SUCCESS` (src/context/AppContext.tsx:201-204). The user ends logged out and nothing stays persisted.
- A chat error turn is the text `"Error: "` followed by the message (src/context/AppContext.tsx:103-108).

## Model

| member | source | states |
|---|---|---|
| Types.StatusLabel | src/types.ts:1-7 | every order status has a non-empty label |
| Types.StatusLabelInjective | src/types.ts:1-7 | the five statuses have pairwise distinct labels (two labels are equal iff the statuses are) |
| Types.RoleName | src/types.ts:52-56 | a user's role string is "admin" exactly for the admin role (the only other role is "user") |
| Lists.Filter | src/context/AppContext.tsx:69-70 | `filter` keeps, in order, exactly the elements satisfying the predicate, with their multiplicities |
| Lists.FilterAppend | src/context/AppContext.tsx:69-70 | filtering distributes over concatenation |
| Lists.FilterIdempotent | src/context/AppContext.tsx:69-70 | filtering twice with the same predicate equals filtering once |
| Lists.FilterKeepsAll | src/components/Financials.tsx:66-79 | a filter every element passes returns the list unchanged |
| Lists.FilterPartitionLength | src/components/Financials.tsx:89-99 | filtering by a predicate and by its negation splits the length of the list |
| Lists.FindIndex | src/components/Financials.tsx:61 | `find` locates the first element with the given id, or -1 when there is none |
| Lists.FindById | src/components/Financials.tsx:61 | `find` returns nothing iff no element has the id, and otherwise the first list element with that id |
| Lists.ReplaceById | src/context/AppContext.tsx:67-68 | the `map` in UPDATE keeps the length and replaces exactly the elements whose id matches |
| Lists.ReplaceByIdNoMatch | src/context/AppContext.tsx:67-68 | an update whose id is absent leaves the list unchanged |
| Lists.ReplaceByIdIdempotent | src/context/AppContext.tsx:67-68 | repeating an update changes nothing more |
| Lists.KeepOtherIds | src/context/AppContext.tsx:69-70 | the DELETE predicate rejects exactly the records with the deleted id |
| Lists.RemoveById | src/context/AppContext.tsx:69-70 | DELETE keeps, in order, exactly the records whose id differs |
| Lists.RemovedIdsGone | src/context/AppContext.tsx:69-70 | no record left after a DELETE filter carries the deleted id |
| Lists.RemoveByIdIdempotent | src/context/AppContext.tsx:69-70 | deleting twice equals deleting once |
| Lists.RemoveByIdNoMatch | src/context/AppContext.tsx:69-70 | deleting an absent id leaves the list unchanged |
| Reducer.InitialState | src/context/AppContext.tsx:13-28 | the initial state has empty collections and an empty chat, no session, and initialization not done |
| Reducer.ErrorTurn | src/context/AppContext.tsx:103-108 | an error turn is "Error: " followed by exactly the message |
| Reducer.ReduceFrame | src/context/AppContext.tsx:30-112 | initialization never reverts; only entity actions, SET_INITIAL_STATE and LOGOUT change collections; only session actions change the session; only chat actions and LOGOUT change the chat log |
| Reducer.AddAppendsOne | src/context/AppContext.tsx:65-66 | ADD_<E> appends exactly the payload to its list and changes nothing else (all four entities, lines 65-66, 71-72, 77-78, 83-84) |
| Reducer.UpdateReplacesMatching | src/context/AppContext.tsx:67-68 | UPDATE_<E> keeps length and order, replaces exactly the matching records and changes nothing else (also lines 73-74, 79-80, 85-86) |
| Reducer.UpdateUnknownIdIsNoOp | src/context/AppContext.tsx:85-86 | UPDATE_ORDER with an unknown id leaves the state unchanged |
| Reducer.DeleteRemovesId | src/context/AppContext.tsx:69-70 | DELETE_<E> removes every record with the id, keeps the others in order and changes nothing else (also lines 75-76, 81-82, 87-88) |
| Reducer.DeleteIdempotent | src/context/AppContext.tsx:87-88 | applying a DELETE twice equals applying it once |
| Reducer.LogoutResets | src/context/AppContext.tsx:41-49 | LOGOUT yields the initial state with only the initialization flag set |
| Reducer.SessionTransitions | src/context/AppContext.tsx:32-58 | AUTH_ERROR clears the session and records the message; LOGIN_SUCCESS sets the session and clears the error; nothing else changes |
| Reducer.SetInitialStateOnlyCollections | src/types.ts:78 | SET_INITIAL_STATE replaces the four collections and nothing else |
| Reducer.InitiallyNotInitialized | src/context/AppContext.tsx:19 | the app starts uninitialized |
| Reducer.InitializedStaysSet | src/context/AppContext.tsx:63-64 | once initialized, no sequence of actions resets the flag |
| Reducer.InitializedOnlyBy | src/context/AppContext.tsx:41-49 | only INITIALIZATION_COMPLETE and LOGOUT set the flag |
| Reducer.ChatTransitions | src/context/AppContext.tsx:91-108 | START appends the user turn and sets loading; SUCCESS and ERROR append a model turn and clear loading; every other field stays as it was |
| Reducer.ToggleChatTwice | src/context/AppContext.tsx:89-90 | TOGGLE_CHAT flips the open flag, and toggling twice restores the state |
| Reducer.UnhandledActionIsNoOp | src/context/AppContext.tsx:109-110 | an action with no case returns the state unchanged |
| Store.Persist | src/context/AppContext.tsx:33-51 | LOGIN_SUCCESS stores the session, LOGOUT and AUTH_ERROR remove it, and every other action leaves storage alone |
| Store.SendMessageTurns | src/context/AppContext.tsx:214-261 | a send with an AI client and a user appends the user's turn and one reply turn and clears loading; without a user nothing changes; without a client one error turn is appended |
| Store.SentAndAnswered | src/context/AppContext.tsx:214-261 | a send that reaches the AI service ends with the user turn and exactly one reply turn appended and loading cleared |
| Store.LoginOutcome | src/context/AppContext.tsx:187-206 | login ends authenticated iff both requests succeed, and then with the server's session and collections; any failure ends logged out with its message, the collections unchanged and nothing persisted |
| Store.LoginRefused | src/context/AppContext.tsx:187-205 | a refused login ends unauthenticated, without user or token, holding the server's message, with nothing stored |
| Store.LoginLoaded | src/context/AppContext.tsx:187-201 | a login whose data fetch succeeds is authenticated with the new session, holds the fetched collections and stores the session |
| Store.LoginLoadFailed | src/context/AppContext.tsx:193-205 | a login whose data fetch fails ends unauthenticated, without user or token, holding the fetch's message, with nothing stored |
| Store.InitializeOutcome | src/context/AppContext.tsx:160-185 | start-up always ends initialized; a stored session is restored with the fetched data, or logged out when the fetch fails |
| Store.RestoreSession | src/context/AppContext.tsx:162-182 | a stored session is logged back in and marked online; it then holds the fetched collections and is initialized, or, when the fetch fails, is the initial state with only the initialization flag set |
| Store.AppStore.constructor | src/context/AppContext.tsx:157 | the store starts from the initial state |
| Store.AppStore.Dispatch | src/context/AppContext.tsx:30-112 | dispatch applies the reducer and its storage effect |
| Store.AppStore.InitializeApp | src/context/AppContext.tsx:160-185 | the start-up sequence of dispatches and its storage effect |
| Store.AppStore.Login | src/context/AppContext.tsx:187-206 | the login sequence, with the error it re-throws |
| Store.AppStore.Logout | src/context/AppContext.tsx:208-210 | logout dispatches LOGOUT and clears storage |
| Store.AppStore.ToggleChat | src/context/AppContext.tsx:212 | toggle dispatches TOGGLE_CHAT |
| Store.AppStore.SendMessageToAI | src/context/AppContext.tsx:214-261 | the send guard and the START then SUCCESS/ERROR dispatch sequence |
| Store.AppStore.AddClient | src/context/AppContext.tsx:263-269 | a failed request leaves the store unchanged and raises its error; a successful one dispatches ADD_CLIENT with the server's record |
| Store.AppStore.UpdateClient | src/context/AppContext.tsx:271-277 | same, for UPDATE_CLIENT |
| Store.AppStore.DeleteClient | src/context/AppContext.tsx:279-282 | same, for DELETE_CLIENT with the requested id |
| Store.AppStore.AddProduct | src/context/AppContext.tsx:284-290 | same, for ADD_PRODUCT |
| Store.AppStore.UpdateProduct | src/context/AppContext.tsx:292-298 | same, for UPDATE_PRODUCT |
| Store.AppStore.DeleteProduct | src/context/AppContext.tsx:300-303 | same, for DELETE_PRODUCT |
| Store.AppStore.AddSupplier | src/context/AppContext.tsx:305-311 | same, for ADD_SUPPLIER |
| Store.AppStore.UpdateSupplier | src/context/AppContext.tsx:313-319 | same, for UPDATE_SUPPLIER |
| Store.AppStore.DeleteSupplier | src/context/AppContext.tsx:321-324 | same, for DELETE_SUPPLIER |
| Store.AppStore.AddOrder | src/context/AppContext.tsx:326-332 | same, for ADD_ORDER |
| Store.AppStore.UpdateOrder | src/context/AppContext.tsx:334-340 | same, for UPDATE_ORDER |
| Store.AppStore.DeleteOrder | src/context/AppContext.tsx:342-345 | same, for DELETE_ORDER |
| Financials.ItemsTotal | src/components/Financials.tsx:58-64 | with non-negative prices and quantities an order total is non-negative |
| Financials.EmptyOrderIsZero | src/components/Financials.tsx:58-64 | an order without items totals 0 |
| Financials.UnknownProductLineIsZero | src/components/Financials.tsx:61-62 | a line whose product is not in the catalogue contributes 0 |
| Financials.KnownProductLine | src/components/Financials.tsx:61-62 | a line contributes the first matching product's price times its quantity |
| Financials.ItemsTotalAppend | src/components/Financials.tsx:60-63 | the total of concatenated item lists is the sum of their totals |
| Financials.NoKnownProductsIsZero | src/components/Financials.tsx:60-63 | items none of whose products exist total 0 |
| Financials.FindIndexAppend | src/components/Financials.tsx:61 | `find` in a concatenation looks in the first part and then in the second |
| Financials.FindByIdAppend | src/components/Financials.tsx:61 | the same, stated for the found record |
| Financials.FindAfterFilter | src/components/Financials.tsx:61 | a filter that keeps every record with the id does not change what `find` returns |
| Financials.FindAfterRemove | src/context/AppContext.tsx:75-76 | deleting a product leaves the lookup of every other id unchanged |
| Financials.DeleteProductLine | src/context/AppContext.tsx:75-76 | deleting a product never raises a line's value, and leaves it unchanged when the line uses another product |
| Financials.DeletedProductLine | src/components/Financials.tsx:61-62 | a line whose product was deleted from the catalog is worth 0 |
| Financials.LineValueNonNegative | src/components/Financials.tsx:61-62 | with non-negative prices and quantity a line is worth at least 0 |
| Financials.DeleteProductLowersTotal | src/context/AppContext.tsx:75-76 | deleting a product never raises an order's total, and leaves it unchanged when no line uses that product |
| Financials.Passes | src/components/Financials.tsx:67-78 | an order passes iff it is inside the set date window, the client filter is "all" or matches, and the product filter is "all" or some item has that product |
| Financials.FilteredOrders | src/components/Financials.tsx:66-79 | the filtered list is an order-preserving sublist holding exactly the passing orders, each as often as in the input |
| Financials.UnsetFiltersKeepAll | src/components/Financials.tsx:46-51 | with the initial filters the list is unchanged |
| Financials.FinancialKPIs | src/components/Financials.tsx:81-101 | the accumulator loop yields the delivered/undelivered revenue and counts of the filtered orders |
| Financials.RevenuePartition | src/components/Financials.tsx:89-99 | total plus projected revenue is the sum of all filtered totals |
| Financials.CountPartition | src/components/Financials.tsx:89-99 | completed plus pending orders is the number of filtered orders |
| Financials.RevenueIsDeliveredTotal | src/components/Financials.tsx:91-96 | total revenue comes only from Entregado orders and projected revenue only from the others |
| Financials.SumOfTotalsSnoc | src/components/Financials.tsx:91-96 | the total of a list with one more order is the old total plus that order's total |
| Financials.Earliest | src/components/Financials.tsx:119-120 | picks the key that precedes every other remaining key |
| Financials.GroupByMonth | src/components/Financials.tsx:104-117 | the map's keys are exactly the months of delivered orders, and each value is that month's delivered total |
| Financials.SortedEntries | src/components/Financials.tsx:119-124 | the entries are listed once each, strictly ascending by key, with their values |
| Financials.AppendEarliest | src/components/Financials.tsx:119-120 | appending the earliest remaining month keeps the bars strictly ascending and ahead of every month still to come |
| Financials.MonthlyRevenueData | src/components/Financials.tsx:103-125 | unique keys sorted strictly ascending, exactly the delivered months, each with its bucket; the buckets sum to the total revenue |
| Financials.BucketOutsideMonths | src/components/Financials.tsx:106-117 | a month with no delivered order has an empty bucket |
| Financials.SumBucketsStep | src/components/Financials.tsx:106-117 | adding one order adds its total to the bucket sum when delivered, and nothing otherwise |
| Financials.BucketsCoverRevenue | src/components/Financials.tsx:91-93 | the buckets over distinct keys covering every delivered month sum to the total revenue |
| Financials.ZeroBuckets | src/components/Financials.tsx:106-117 | no orders give empty buckets |
| Financials.KeyList | src/components/Financials.tsx:121-124 | the keys of the chart data, in order |
| Financials.SumValuesIsSumBuckets | src/components/Financials.tsx:121-124 | the chart values sum to the sum of their buckets |
| Financials.MonthlySumIsRevenue | src/components/Financials.tsx:91-93 | ascending chart data that covers every delivered month sums to the total revenue |
| Financials.DeliveredOrderExample | src/components/Financials.tsx:106-117 | one delivered order of two 100.00 items fills its month with 200.00 and projects nothing |
| Text.LeadingWhitespace | components/Chatbot.tsx:29-30 | counts the whitespace run at the start |
| Text.TrailingWhitespace | components/Chatbot.tsx:29-30 | counts the whitespace run at the end |
| Text.Trim | components/Chatbot.tsx:29-30 | `trim` never returns more characters than it was given |
| Text.TrimSpec | components/Chatbot.tsx:29-30 | `trim` returns the input's middle slice with only whitespace around it; it is empty iff the input is all whitespace, and otherwise has no edge whitespace |
| Text.TrimIdempotent | components/Chatbot.tsx:29-30 | trimming twice equals trimming once |
| OrderSort.ChainedIsSorted | components/OrderList.tsx:118-120 | adjacent order by due date implies every pair is ordered |
| OrderSort.Insert | components/OrderList.tsx:118-120 | inserting into a sorted list keeps it sorted and adds exactly that order |
| OrderSort.InsertionSort | components/OrderList.tsx:118-120 | the result is sorted by due date and a permutation of the input |
| OrderSort.SortByDueDate | src/components/Dashboard.tsx:54-55 | the copy is sorted by due date (ascending or descending) and a permutation of the orders |
| OrderSort.SortSortedIsIdentity | components/OrderList.tsx:118-120 | sorting an already-sorted list returns it unchanged |
| OrderSort.InsertAfterAll | components/OrderList.tsx:118-120 | an order due no earlier than all others goes at the end |
| OrderSort.SortByDueDateStable | components/OrderList.tsx:118-120 | the sort is stable: for every due date, the orders due then come out in their input order |
| OrderSort.InsertionSortStable | components/OrderList.tsx:118-120 | the insertion sort keeps, for every due date, the input order of the orders due then |
| OrderSort.InsertKeepsTies | components/OrderList.tsx:118-120 | inserting an order puts it after every order with the same due date and keeps their order |
| OrderSort.TiesAreFilter | components/OrderList.tsx:118-120 | the orders due at a date, taken front to back, are the generic filter with that test |
| OrderForm.FirstId | src/components/OrderForm.tsx:35-36 | `list[0]?.id \|\| ''`: the first record's id, or empty for an empty list |
| OrderForm.LoadInitial | src/components/OrderForm.tsx:25-42 | loading an order keeps its fields and replaces an empty item list by one placeholder; a new form preselects the first client and product; the form always has an item |
| OrderForm.ClampQuantity | src/components/OrderForm.tsx:52-53 | a quantity edit stores the value when at least 1 and 1 otherwise |
| OrderForm.EditItem | src/components/OrderForm.tsx:51-56 | an edit changes exactly the chosen field of the item |
| OrderForm.WithItemEdited | src/components/OrderForm.tsx:49-58 | editing changes only the item at the index |
| OrderForm.WithItemAdded | src/components/OrderForm.tsx:60-62 | adding appends exactly one item with the first product and quantity 1 |
| OrderForm.RemoveAt | src/components/OrderForm.tsx:66 | `filter((_, i) => i !== index)` drops exactly the item at the index, keeping the rest in order, and keeps the list unchanged for an index out of range |
| OrderForm.WithItemRemoved | src/components/OrderForm.tsx:64-67 | removal does nothing with at most one item and otherwise removes that index; the list is never emptied |
| OrderForm.ProcessSubmit | src/components/OrderForm.tsx:69-90 | submit is refused iff no item has a product; otherwise it keeps exactly the product lines in order and carries the edited order's id (none for a new order) |
| OrderForm.EditsKeepQuantitiesPositive | src/components/OrderForm.tsx:49-67 | edits, additions and removals keep every quantity at least 1 |
| OrderForm.SubmitKeepsProductLines | src/components/OrderForm.tsx:73 | every submitted item has a product |
| OrderForm.OrderFormState.constructor | src/components/OrderForm.tsx:15-42 | the form starts from the loaded initial data with at least one item |
| OrderForm.OrderFormState.HandleItemChange | src/components/OrderForm.tsx:49-58 | the form's items become the edited list, keeping at least one item |
| OrderForm.OrderFormState.AddItem | src/components/OrderForm.tsx:60-62 | the form's items gain one line |
| OrderForm.OrderFormState.RemoveItem | src/components/OrderForm.tsx:64-67 | the form's items lose the line unless it is the only one |
| OrderForm.OrderFormState.HandleSubmit | src/components/OrderForm.tsx:69-90 | submits the processed order or nothing, leaving the form's order unchanged; after a submit the form is still submitting iff the awaited save failed |
| OrderList.TotalAgreesWithFinancials | components/OrderList.tsx:94-101 | the order list's total formula equals the financial screen's on every item list |
| OrderList.OrderTotalAgrees | components/OrderList.tsx:94-101 | the two order totals agree, and an order without items totals 0 |
| OrderList.ClientName | components/OrderList.tsx:103 | the first matching client's name, or "N/A" when none matches or its name is empty (also the dashboard row, src/components/Dashboard.tsx:36) |
| OrderList.ProductName | components/OrderList.tsx:104 | the first matching product's name, or "N/A" |
| OrderList.SortedOrders | components/OrderList.tsx:118-120 | the listed orders are a permutation of the state's orders, earliest due date first |
| OrderList.WithId | components/OrderList.tsx:44-46 | an edit submission becomes the work order with that id and the submitted fields |
| OrderList.HandleSubmit | components/OrderList.tsx:44-51 | update iff an order is being edited and the submission has an id; otherwise add iff the user is an admin; else nothing |
| OrderList.SubmitFromForm | components/OrderList.tsx:44-51 | a form opened on an order updates that order; a blank form adds only for an admin |
| OrderList.SubmitAndClose | components/OrderList.tsx:39-51 | the modal is closed, and the edited order cleared, iff nothing was written or the awaited write succeeded; otherwise it stays open on the same order |
| OrderList.FailedSaveKeepsModal | components/OrderList.tsx:39-51 | for a submit that writes, a failed save leaves the modal open on the same order and a successful one closes it |
| OrderList.RequestNotification | components/OrderList.tsx:68-75 | the notification is refused with the missing-client alert iff no client has the order's client id |
| OrderList.ActionsFor | components/OrderList.tsx:163-176 | notify is offered iff the order is Listo, and delete iff the user is an admin |
| OrderList.ConfirmDelete | components/OrderList.tsx:61-66 | a delete is issued iff a non-empty id is pending |
| OrderList.ConfirmDeleteAndClose | components/OrderList.tsx:57-66 | the confirm dialog closes, clearing the pending id, iff no delete was issued or the awaited delete succeeded; otherwise it stays open on the same id |
| OrderList.FailedDeleteKeepsConfirm | components/OrderList.tsx:57-66 | a rejected delete of a non-empty id leaves the dialog open on that id; an empty id or a successful delete closes it |
| Notification.LastSix | components/NotificationModal.tsx:32 | `slice(-6)` is the last min(6, \|id\|) characters of the id |
| Notification.Subject | components/NotificationModal.tsx:32 | the subject is the fixed head, the id's last six characters, the fixed middle and the patient name |
| Notification.NotesSection | components/NotificationModal.tsx:62-69 | the notes block is shown iff the notes are present and non-empty |
| Dashboard.PendingOrders | src/components/Dashboard.tsx:53 | the pending count and the delivered count add up to the number of orders |
| Dashboard.PendingMatchesFinancials | src/components/Dashboard.tsx:53 | the pending count equals the pending count of the financial KPIs |
| Dashboard.RecentOrders | src/components/Dashboard.tsx:54-56 | min(5, n) of the orders, latest due first, none left out due later than any shown |
| Dashboard.PrefixIsLatest | src/components/Dashboard.tsx:56 | a prefix of a latest-first list holds the latest orders |
| ChangePassword.Validate | src/components/ChangePasswordForm.tsx:24-31 | a mismatch is reported first, then a password under 6 characters; the call is allowed iff both pass |
| ChangePassword.ErrorText | src/components/ChangePasswordForm.tsx:44 | the shown error is the server message, else the error's message, else the default text |
| ChangePassword.ChangePasswordForm.constructor | src/components/ChangePasswordForm.tsx:12-17 | all fields and messages start empty |
| ChangePassword.ChangePasswordForm.HandleSubmit | src/components/ChangePasswordForm.tsx:19-48 | clears both messages; a failed validation sets its message without a call; a success empties the three fields and schedules `onSuccess`; a failure shows its text; submitting ends false after a call |
| Authorize.Authorize | middleware/authorize.js:2-9 | the request reaches `next()` iff it has a user whose role is allowed, and is otherwise answered 403 with the fixed message |
| Authorize.NoRolesDeniesAll | middleware/authorize.js:2-5 | with no allowed roles every request is refused |
| Authorize.MoreRolesAllowMore | middleware/authorize.js:4 | allowing more roles never refuses a request that passed |
| Authorize.AdminOnly | middleware/authorize.js:4 | an admin-only gate lets through exactly the users with role "admin" |
| App.HeaderTitle | src/App.tsx:20-27 | the title of the first matching prefix, tested in order; "Dashboard" iff no prefix matches |
| App.HeaderTitleExamples | src/App.tsx:20-27 | "/" gives Dashboard, "/orders/123" the orders title, "/financials" the finance title |
| App.AppScreen | src/App.tsx:68-74 | the spinner is shown iff the app is not initialized |
| App.SpinnerOnlyBeforeInitialization | src/App.tsx:68-74 | the app starts on the spinner and never returns to it once initialized |
| App.PrivateRoute | components/PrivateRoute.tsx:11-28 | loading iff not initialized; redirect iff initialized and not authenticated; children iff both |
| App.GuardAfterSessionActions | components/PrivateRoute.tsx:23-27 | after a logout, or an auth error on an initialized app, the guard redirects; after a login it renders the page |
| Chatbot.SubmitGuard | components/Chatbot.tsx:27-33 | a message is sent iff the input is not all whitespace and no reply is pending; it is the trimmed input |
| Chatbot.Panel | components/Chatbot.tsx:35 | nothing is rendered while the chat is closed |
| Chatbot.ChatInput.constructor | components/Chatbot.tsx:10 | the input starts empty |
| Chatbot.ChatInput.HandleSubmit | components/Chatbot.tsx:27-33 | sends through the store and clears the input iff the guard passes; otherwise changes neither |

## Left out

- Network I/O is not modelled. This covers `fetcher`, the HTTP status handling and the four concurrent requests of `Promise.all`. Every backend answer is a `Result`/`Outcome` parameter, and the four-way fetch is one answer, because any single failure aborts it.
- The AI call is not modelled. Its system prompt, the `JSON.stringify` of the data and the model name are left out. The AI's availability and its reply are parameters of `SendMessageToAI`.
- Local storage is the ghost field `persisted` of `Store.AppStore`. It holds the session written by LOGIN_SUCCESS and cleared by LOGOUT/AUTH_ERROR. The JSON encoding is not modelled.
- `console` logging and `SET_ONLINE_STATUS`'s meaning (an offline indicator) are not modelled. The flag itself is in the state.
- JavaScript `Date` is not modelled. This includes parsing, local time zones, `toISOString`, `split('T')` and `toLocaleDateString`. The parameters `dayOf`, `instantOf` and `monthOf` stand for these conversions.
  - Financials.InWindow: the end bound is 23:59:59.000 of the end day. An order due later in that last second is excluded, as in the source.
  - Financials.KeyBefore: orders month keys by (year, month). This agrees with `localeCompare` on `YYYY-MM` strings only for four-digit years.
- Prices and quantities are integers. JavaScript numbers, `NaN`, currency formatting and the bar chart's heights are not modelled.
  - Financials.ItemsTotal: does not model `item.quantity || 0`, nor `product?.price || 0` for a missing or NaN price. The declared types make both numbers present. A zero price is modelled and counts as 0.
  - Financials.CalculateOrderTotal: the `!order.items` guard cannot fire, because `items` is a required sequence.
- OrderForm.ClampQuantity: `Number(value)` of non-numeric or fractional text is not modelled. The edit arrives as an optional integer.
- ChangePassword.Validate: the length is counted in characters, while JavaScript counts UTF-16 code units.
- The generic field edits of the order form (`handleChange`), the form's `alert` and the summary markup of the order list (`getProductSummary`) are left out. Alerts are returned values.
- `changePassword` is outside this model. Its outcome is a parameter of `ChangePassword.ChangePasswordForm.HandleSubmit`. The `setTimeout` that calls `onSuccess` is recorded as the flag `onSuccessScheduled`.
- The order form's `onSubmit` is the order list's `handleSubmit`. How its awaited `updateOrder`/`addOrder` ends is the parameter `saved` of `OrderForm.OrderFormState.HandleSubmit` and `OrderList.SubmitAndClose`. The store side of that write is `Store.AppStore.AddOrder`/`UpdateOrder`.
- OrderSort.SortByDueDate: the engine's `Array.prototype.sort` is modelled as an insertion sort. Its result is the one ECMAScript requires: sorted, a permutation, and stable (`OrderSort.SortByDueDateStable`). The engine's own algorithm and its comparison count are not modelled.
- Store.AppStore.Login, Store.AppStore.SendMessageToAI, Store.LoginOutcome, Store.SendMessageTurns and Store.SentAndAnswered: each action creator runs as one atomic step. Other dispatches that interleave at its `await`s are not modelled, and neither is the stale `state` captured by the closure.
- The backend other than the role gate is not modelled. This covers the Express server, the routes, the Mongoose models and the JWT check. The presentational components (sidebars, lists, forms, modals, spinner, markdown) are also left out.
- WorkOrder.dueDate is an integer timestamp in the store. The form edits it as a day string, which the submit converts with `instantOf`.
