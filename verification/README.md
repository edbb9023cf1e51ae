# Storefront order, cart and account rules in Dafny

This project models the decision logic of an Angular storefront. The storefront sells a product catalogue, keeps a shopping cart, takes orders through an address and a payment step, and lets customers follow, cancel and review their orders. An admin area processes orders through a fixed status lifecycle, archives or deletes them, reviews customers and manages the admin's own account.

All data lives in a JSON document store with the collections `products`, `cart`, `orders`, `users`, `admins` and `notifications`. The model holds that store in the class `DocumentStore.Store`. The browser's localStorage and sessionStorage are the class `DocumentStore.BrowserStorage`. Each service and each page of the core is one Dafny module:

- A page or service whose fields its methods reassign is a class with those fields. Its methods carry `modifies` clauses and state the whole new state.
- Its pure helpers (lookups, formatters, filters, decision tables) are functions with named results, beside the class.
- Loops in the source are loops in the model, proved against a specification function whose properties are lemmas.
- Shared definitions sit in helper modules:
  - `Common`: Option and Result, and string and sequence helpers.
  - `Sorting`: an insertion sort by a total preorder, which keeps ties in their input order.
  - `Paging`: page counts and page slices.
  - `Model`: the records of the store and the status names.
  - `Inventory`: restocking and the checkout stock decrement.
  - `OrderListing`: the order list rules shared by the admin and customer views.

What the code does not decide by itself becomes a parameter of the method that needs it:

- Whether an HTTP request succeeds is a `bool` or an `Option` argument, given at the point where the source branches on the outcome.
- The MD5 hash is a function argument `hash: string -> string`.
- The current time is an integer number of milliseconds.
- `Math.random` is a real in [0, 1).

Money is an exact `real`. Integers are unbounded. JavaScript's truthiness tests (a price or rating of 0, an empty string) are written out where the source relies on them.

Where the code differs from what its names or comments suggest, the model follows the code:

- The cart service never reads or writes product stock. Stock goes down only after checkout has saved the order. The product page changes only its own display copy.
- A customer's cancellation never sets `isArchived` or `autoDeleteDate`, so the expiry sweep never removes such an order.
- Only the admin's `processOrder` checks the status-transition table. The quick status change and the order-processing service write any status.
- The order tracking page marks its steps with an index shifted by one. The page's method models that as written; see "## Findings".

## Model

| member | source | states |
|---|---|---|
| OrderProcessing.ActorName | src/app/services/order-processing.service.ts:86 | the actor recorded is the current admin's name when there is an admin with a non-empty name, and 'System' when there is no admin or the name is empty |
| OrderProcessing.FindLocation | src/app/services/order-processing.service.ts:48 | the location found has the id and is the first such in the list; none exactly when no location has the id |
| OrderProcessing.StatusDescription | src/app/services/order-processing.service.ts:121-136 | 'Status updated' exactly for an unknown status; the location's name appears in the processing and shipped texts when a location is given |
| OrderProcessing.WithStatus | src/app/services/order-processing.service.ts:71-101 | the order takes the new status; one entry is appended to the history (an absent history counting as empty), whose status, time, actor, description and "name, city" location are those of the update; notes replaced only when non-empty; items, totals, customer and address unchanged |
| OrderProcessing.HistoryAppendOnly | src/app/services/order-processing.service.ts:97-100 | after any run of status updates, whatever their statuses, the old history is a prefix of the new one, with one entry per update carrying that update's status, and the order as placed is unchanged |
| OrderProcessing.WithNotes | src/app/services/order-processing.service.ts:166-171 | adding notes changes only notes, time and actor; status, history and location stay |
| OrderProcessing.OrdersByStatus | src/app/services/order-processing.service.ts:197-201 | exactly the orders with the status |
| OrderProcessing.OrdersNeedingAttention | src/app/services/order-processing.service.ts:206-212 | exactly the pending and processing orders |
| OrderProcessing.OrderStatistics | src/app/services/order-processing.service.ts:217-249 | total is the number of orders and each counter counts the orders of its status |
| OrderProcessing.StatisticsAccount | src/app/services/order-processing.service.ts:236-244 | the five counters plus the untallied orders make up the total, and every confirmed order is untallied, so the counters sum to at most the total |
| OrderProcessing.CountMatchesQuery | src/app/services/order-processing.service.ts:197-201 | a status counter equals the size of the by-status query for that status |
| OrderProcessing.OrderProcessingService.ResolveLocation | src/app/services/order-processing.service.ts:45-58 | no location without an id or when the location fetch fails; a resolved location has the requested id |
| OrderProcessing.OrderProcessingService.UpdateOrderStatus | src/app/services/order-processing.service.ts:31-116 | an unknown order is an error and changes nothing; otherwise the stored order becomes WithStatus of it, with any status accepted for any current one, when the save succeeds, and nothing changes when it fails |
| OrderProcessing.OrderProcessingService.GetOrderTracking | src/app/services/order-processing.service.ts:141-154 | an error exactly for an unknown order, else its history (empty when absent) |
| OrderProcessing.OrderProcessingService.AddProcessingNotes | src/app/services/order-processing.service.ts:159-192 | an unknown order is an error; otherwise the stored order becomes WithNotes of it when the save succeeds, and nothing changes when it fails |
| OrderProcessing.OrderProcessingService.constructor | src/app/services/order-processing.service.ts:13-19 | the service starts with no order update published |
| AdminOrders.ValidTransitions | src/app/pages/admin/admin-orders/admin-orders.ts:397-406 | the targets listed are exactly the allowed moves (pending to confirmed or cancelled, confirmed to processing, processing to shipped, shipped to delivered); delivered, cancelled and unknown statuses allow none |
| AdminOrders.ValidPathForward | src/app/pages/admin/admin-orders/admin-orders.ts:397-406 | any chain of allowed moves only goes forward: it never revisits a status and is at most five statuses long |
| AdminOrders.NoFiltersPassAll | src/app/pages/admin/admin-orders/admin-orders.ts:341-350 | with every filter cleared the table holds every loaded order, each as often as loaded, in the order of the sort column |
| AdminOrders.ComparatorPreorder | src/app/pages/admin/admin-orders/admin-orders.ts:254-280 | the comparator of every sort field and direction is a total preorder |
| AdminOrders.FilteredListingCorrect | src/app/pages/admin/admin-orders/admin-orders.ts:208-280 | the filtered list holds exactly the orders that pass every non-empty filter, each as often as before, ordered by the sort field and direction |
| AdminOrders.ArchivedByAdmin | src/app/pages/admin/admin-orders/admin-orders.ts:535-552 | a removed order becomes cancelled and archived by the admin at now, with the reason as both reasons, expiring 30 days after now; every other field, visibility and all the totals among them, is the order's own |
| AdminOrders.RemovalNotice | src/app/pages/admin/admin-orders/admin-orders.ts:595-630 | the notice is unread, of kind 'order_removed', for the order's number, total and customer email, with the reason, dated now |
| AdminOrders.ArchivedStaysListed | src/app/pages/admin/admin-orders/admin-orders.ts:533-552 | an archived order stays in the admin listing exactly when it was visible, and no sweep removes it before its 30 days are up |
| AdminOrders.ArchiveOrder | src/app/pages/admin/admin-orders/admin-orders.ts:509-590 | the archive write happens whether or not the restock does; a non-delivered order's items go back to stock; notifications, cart and users are untouched |
| AdminOrders.AdminOrdersPage.constructor | src/app/pages/admin/admin-orders/admin-orders.ts:98-148 | the page starts empty, on page 1 of 10 per page, sorted by orderDate descending, with no filters |
| AdminOrders.AdminOrdersPage.UpdatePagination | src/app/pages/admin/admin-orders/admin-orders.ts:286-298 | totalPages is ceil(n / itemsPerPage), a page beyond it falls back to 1, and the page shown is the slice of that page |
| AdminOrders.AdminOrdersPage.SortOrders | src/app/pages/admin/admin-orders/admin-orders.ts:254-280 | the filtered list is sorted by the current field and direction and nothing else changes |
| AdminOrders.AdminOrdersPage.ApplyFilters | src/app/pages/admin/admin-orders/admin-orders.ts:208-252 | the filtered list is FilteredListing of all orders, then paginated |
| AdminOrders.AdminOrdersPage.LoadOrders | src/app/pages/admin/admin-orders/admin-orders.ts:180-206 | a successful fetch lists the admin-visible orders, cancelled last and newest first, then filters and paginates; a failed one keeps the lists |
| AdminOrders.AdminOrdersPage.ChangePage | src/app/pages/admin/admin-orders/admin-orders.ts:300-308 | a page in 1..totalPages is shown; any other page is ignored |
| AdminOrders.AdminOrdersPage.ChangeItemsPerPage | src/app/pages/admin/admin-orders/admin-orders.ts:310-317 | the new size applies from page 1 |
| AdminOrders.AdminOrdersPage.SortBy | src/app/pages/admin/admin-orders/admin-orders.ts:319-331 | the same field flips the direction, a new field sorts ascending; the list is re-sorted and re-paginated |
| AdminOrders.AdminOrdersPage.ClearFilters | src/app/pages/admin/admin-orders/admin-orders.ts:341-353 | every filter is cleared and the list refiltered under the same sort |
| AdminOrders.AdminOrdersPage.UpdateOrderStatus | src/app/pages/admin/admin-orders/admin-orders.ts:355-380 | isUpdating is set before an order without id returns; otherwise the status is written with no transition check and the order replaced in the page lists on success |
| AdminOrders.AdminOrdersPage.OpenProcessingModal | src/app/pages/admin/admin-orders/admin-orders.ts:382-391 | the modal opens on the order, preset to its status, location and notes |
| AdminOrders.AdminOrdersPage.ValidStatusTransitions | src/app/pages/admin/admin-orders/admin-orders.ts:393-407 | empty with no selected order, else exactly the allowed moves from its status |
| AdminOrders.AdminOrdersPage.CloseProcessingModal | src/app/pages/admin/admin-orders/admin-orders.ts:466-475 | the modal and its fields are cleared |
| AdminOrders.AdminOrdersPage.ProcessOrder | src/app/pages/admin/admin-orders/admin-orders.ts:412-461 | no selected order with an id changes nothing; a move outside the allowed table raises the alert and writes nothing; an allowed move reports saved exactly when the order is stored and the PUT succeeds, and then the store and the table hold the order with the new status, resolved location and notes and the dialog closes; nothing else in the store changes |
| AdminOrders.AdminOrdersPage.OpenRemoveModal | src/app/pages/admin/admin-orders/admin-orders.ts:477-485 | the removal modal opens on the order with an empty reason, notifying unless it is delivered |
| AdminOrders.AdminOrdersPage.CloseRemoveModal | src/app/pages/admin/admin-orders/admin-orders.ts:631-639 | the removal modal and its fields are reset |
| AdminOrders.AdminOrdersPage.RemoveOrderFromDatabase | src/app/pages/admin/admin-orders/admin-orders.ts:533-590 | the order is archived by the admin and a non-delivered order restocked, whether or not the restock succeeds |
| AdminOrders.AdminOrdersPage.RemoveOrder | src/app/pages/admin/admin-orders/admin-orders.ts:487-531 | a delivered order is deleted with no notice or restock; any other is archived and restocked, after the notice when notifying, whether or not the notice succeeds |
| AdminOrders.AdminOrdersPage.OrderCountByStatus | src/app/pages/admin/admin-orders/admin-orders.ts:714-719 | the number of listed orders with the status, at most the list's length |
| AdminOrders.AdminOrdersPage.TotalOrdersCount | src/app/pages/admin/admin-orders/admin-orders.ts:721-723 | the total is the sum of the five per-status counts the page shows (pending, processing, shipped, delivered, cancelled) plus the orders in no counted status, such as the confirmed ones |
| AdminOrders.ColumnSortedCorrect | src/app/pages/admin/admin-orders/admin-orders.ts:254-280 | sorting keeps every order as often as listed and orders the list by the field in the direction |
| AdminOrders.StepFor | src/app/pages/admin/admin-orders/admin-orders.ts:413-433 | nothing happens exactly without a selected order with an id; the alert exactly for a move outside the table; otherwise the write of that order's id |
| AdminOrders.AdminOrdersPage.SaveStatus | src/app/pages/admin/admin-orders/admin-orders.ts:435-460 | saved exactly when the order is in the store and the PUT succeeds; then the store and the table both hold the order with the new status, location and notes; otherwise neither changes; the busy flag drops either way |
| AdminOrders.AdminOrdersPage.AfterRemoval | src/app/pages/admin/admin-orders/admin-orders.ts:563-587 | a written archive reloads the table and closes the dialog; a failed write leaves the table; the busy flag drops either way |
| AdminOrders.AdminOrdersPage.RemoveDelivered | src/app/pages/admin/admin-orders/admin-orders.ts:493-507 | the order is deleted from the store with no restock and no notice; when it was there it leaves the table and the dialog closes, otherwise the table stays |
| OrderListing.RankThenNewestPreorder | src/app/pages/admin/admin-orders/admin-orders.ts:187-193 | the listing comparator, by rank (cancelled as 2, the rest 0) and then newest orderDate first, is a total preorder |
| OrderListing.NewestPreorder | src/app/pages/order-history/order-history.ts:127-131 | the newest-first comparator, a missing orderDate counting as 0, is a total preorder |
| OrderListing.AdminListingArranged | src/app/pages/admin/admin-orders/admin-orders.ts:185-193 | the admin list holds exactly the orders not flagged invisible to the admin, each as often as fetched, every cancelled order after every other and newest first within each group |
| OrderListing.CancelledLastArranged | src/app/pages/order-history/order-history.ts:258-266 | the re-sort after a cancellation is a permutation with cancelled orders last and newest first within each group |
| Inventory.RestockedStock | src/app/pages/admin/admin-orders/admin-orders.ts:730-739 | restocking keeps the catalogue's products and adds to each product the quantities its order lines return |
| Inventory.ReturnedQuantityNonNegative | src/app/pages/admin/admin-orders/admin-orders.ts:732-733 | lines with no product id or a quantity of 0 or less return nothing, so a restock never lowers stock |
| Inventory.RestockOrderItems | src/app/pages/admin/admin-orders/admin-orders.ts:726-743 | a delivered order restocks nothing; any other adds its lines' quantities to stock, succeeding exactly when every product is found; no other collection changes |
| Inventory.StockAfterSale | src/app/pages/checkout-payment/checkout-payment.ts:329 | stock after a sale is stock minus quantity, clamped at 0, so never negative |
| Inventory.AvailabilityFor | src/app/pages/checkout-payment/checkout-payment.ts:330-336 | 'Out of Stock' exactly at 0, 'Low Stock' exactly from 1 to 10, 'In Stock' exactly above 10 |
| Inventory.SoldConsistent | src/app/pages/checkout-payment/checkout-payment.ts:322-346 | after the decrement the catalogue keeps its products, unordered products are untouched and every ordered product has non-negative stock with the matching availability |
| Inventory.UpdateProductStock | src/app/pages/checkout-payment/checkout-payment.ts:322-346 | the catalogue becomes the decremented one and no other collection changes |
| Model.NewerFirstPreorder | src/app/components/admin-notifications/admin-notifications.ts:59-61 | the later-createdAt-first comparator of the notification lists is a total preorder |
| Model.IndexOfOrder | src/app/pages/order-history/order-history.ts:250 | the index of the first order with the id, or -1 exactly when none has it |
| Model.ReplaceOrder | src/app/pages/order-history/order-history.ts:250-253 | the PUT keeps the list's length, leaves every order with another id as it was, and the new order is in the list when one had the id |
| Model.WithoutIds | src/app/services/auto-cleanup.service.ts:56-69 | exactly the orders whose id is not among the deleted ones |
| Model.WithoutIdsAppend | src/app/services/auto-cleanup.service.ts:56-69 | deleting by id works piecewise on a concatenation, so order is kept |
| Model.WithoutIdsTwice | src/app/services/auto-cleanup.service.ts:56-69 | two rounds of deletion equal one round with both id sets |
| Paging.PageCountBounds | src/app/pages/admin/admin-orders/admin-orders.ts:287 | the number of pages is ceil(n / size): 0 for no items, and the last page is neither empty nor overfull |
| Paging.PageSliceContents | src/app/pages/admin/admin-orders/admin-orders.ts:293-296 | the page holds the items from (page-1)*size on, in order, and as many of them as exist up to size |
| Paging.PageSlice | src/app/pages/admin/admin-orders/admin-orders.ts:293-296 | the page shown holds at most size items, the items from (page-1)*size on, all of them that exist |
| Paging.ElementOnPage | src/app/pages/admin/admin-orders/admin-orders.ts:286-298 | every item appears on exactly the page its index says, at its offset there |
| Paging.PageAfterChange | src/app/pages/admin/admin-orders/admin-orders.ts:288-291 | the page is kept when it still exists and falls back to 1 otherwise |
| Paging.KeyLeTotal | src/app/pages/admin/admin-orders/admin-orders.ts:254-280 | any two sort keys compare one way or the other |
| Paging.KeyLeTransitive | src/app/pages/admin/admin-orders/admin-orders.ts:254-280 | the sort-key order is transitive |
| Paging.NextSort | src/app/pages/admin/admin-orders/admin-orders.ts:319-331 | sortBy selects the field; a new field sorts ascending and the same field flips the direction |
| OrderHistory.CustomerListingCorrect | src/app/pages/order-history/order-history.ts:107-131 | the shopper's list holds exactly the orders whose trimmed, lower-cased email is the shopper's and that are not flagged invisible to them, each as often as fetched, newest first with a missing orderDate as 0 |
| OrderHistory.CanCancelOrder | src/app/pages/order-history/order-history.ts:357-360 | true exactly for 'confirmed' and 'processing' |
| OrderHistory.FinalReason | src/app/pages/order-history/order-history.ts:200 | the custom text when 'Other' is chosen, the chosen reason otherwise |
| OrderHistory.CancelledRecord | src/app/pages/order-history/order-history.ts:213-222 | the record becomes cancelled by the customer with the reason and time, visible to both sides; every other field, isArchived and autoDeleteDate among them, is the order's own |
| OrderHistory.CustomerCancelNeverSwept | src/app/pages/order-history/order-history.ts:207-222 | writing a customer's cancellation over the stored copy of an order that was not archived leaves the expiry sweep's selection unchanged at every time, so the cancelled order is never swept |
| OrderHistory.RefundNotice | src/app/pages/order-history/order-history.ts:278-311 | the refund notice is for the customer, unread, of kind 'order_refund_notification', with the order's number, total and the reason |
| OrderHistory.CancelNotice | src/app/pages/order-history/order-history.ts:313-345 | the admin notice is for the admins, unread, of kind 'order_deleted_by_customer', with the order's number, total and the reason |
| OrderHistory.CancellationNotices | src/app/pages/order-history/order-history.ts:233-241 | a customer notice is stored exactly when the payment is not cash on delivery (case-insensitively) and its post succeeds; an admin notice exactly when its post succeeds |
| OrderHistory.StatusText | src/app/pages/order-history/order-history.ts:175-178 | 'Unknown' for an empty status, otherwise the status with its first letter upper-cased and the rest kept |
| OrderHistory.StatusTextIdempotent | src/app/pages/order-history/order-history.ts:175-178 | capitalising a status twice is capitalising it once |
| OrderHistory.CancelInStore | src/app/pages/order-history/order-history.ts:224-241 | the order is rewritten as cancelled; only when the order exists are its lines restocked and the notices stored; otherwise stock and notifications are unchanged |
| OrderHistory.OrderHistoryPage.constructor | src/app/pages/order-history/order-history.ts:22-30 | the page starts with no orders, loading, no error and no modal |
| OrderHistory.OrderHistoryPage.LoadOrders | src/app/pages/order-history/order-history.ts:67-142 | no stored userId sends the shopper to '/login'; a failed fetch gives 'Failed to load order history'; a userId no user has gives 'User not found' and loads nothing; otherwise the list is the visible orders, newest first, of the first user with that userId and the error is kept; only the login path navigates; the alert, the cancellation dialog and its reasons never change |
| OrderHistory.OrderHistoryPage.OpenCancelModal | src/app/pages/order-history/order-history.ts:187-192 | the modal opens on the order with both reasons cleared |
| OrderHistory.OrderHistoryPage.CloseCancelModal | src/app/pages/order-history/order-history.ts:347-352 | the modal closes and its fields are cleared |
| OrderHistory.OrderHistoryPage.CancelRequest | src/app/pages/order-history/order-history.ts:197-205 | a cancellation goes ahead exactly when an order with an id is selected and the final reason is not empty, and then with that reason |
| OrderHistory.OrderHistoryPage.CancelOrder | src/app/pages/order-history/order-history.ts:197-273 | with no request nothing is written; otherwise the order is rewritten as cancelled, with no status check; restock and notices follow only a successful write; the list entry is replaced and re-sorted cancelled last |
| OrderHistory.ResortedAfterCancel | src/app/pages/order-history/order-history.ts:250-266 | the re-sorted list keeps its length and entries and puts cancelled orders last, newest first within each group |
| OrderHistory.CancelledMessage | src/app/pages/order-history/order-history.ts:211-247 | a cash-on-delivery order gets the no-refund notice and any other order the refund notice |
| OrderHistory.OrderHistoryPage.ShowCancelled | src/app/pages/order-history/order-history.ts:242-266 | the notice for the order's payment method is raised, the order is replaced by its cancelled record and the list re-sorted with cancelled orders last, and the dialog closes |
| AutoCleanup.SelectExpired | src/app/services/auto-cleanup.service.ts:47-52 | an order is selected exactly when it is archived, has an autoDeleteDate and now is at or past that date (the boundary included) |
| AutoCleanup.SelectExpiredAppend | src/app/services/auto-cleanup.service.ts:47-52 | the selection is made order by order, keeping the list's order |
| AutoCleanup.IdsOf | src/app/services/auto-cleanup.service.ts:58-60 | the ids the deletes are sent for are exactly those of the selected orders |
| AutoCleanup.CleanupExpiredOrders | src/app/services/auto-cleanup.service.ts:39-81 | a failed fetch is an error and deletes nothing; with nothing selected the count is 0 and nothing is deleted; otherwise every selected order is deleted and the count is the number selected when every delete succeeds, an error otherwise; other collections are untouched |
| AutoCleanup.GetCleanupStats | src/app/services/auto-cleanup.service.ts:97-130 | expiredCount is the number the sweep would select now, at most totalArchived, which is at most the number of orders; the next run is an hour later |
| AutoCleanup.ExpiredOfArchived | src/app/services/auto-cleanup.service.ts:107-112 | selecting among the archived orders selects the same orders as the sweep |
| AutoCleanup.DeleteEach | src/app/services/auto-cleanup.service.ts:57-69 | after every DELETE the store holds exactly the orders whose id was not among the selected ones, in their order; all of them succeed exactly when every selected order has an id and no two share one; no other collection changes |
| AutoCleanup.DeleteStep | src/app/services/auto-cleanup.service.ts:58-60 | one more DELETE removes that order's id from what is left, and it succeeds exactly when an order with that id is still there |
| AutoCleanup.DeleteFinds | src/app/services/auto-cleanup.service.ts:58-60 | after the ids of earlier deletes are gone, a selected order is still found exactly when its id was not among them |
| AutoCleanup.UniquelyIdentifiedSnoc | src/app/services/auto-cleanup.service.ts:58-60 | a list stays uniquely identified when the added order has an id not yet in it, and only then |
| AutoCleanup.IdsOfSnoc | src/app/services/auto-cleanup.service.ts:58-60 | the ids of a list with one more order are the earlier ids plus that order's id, if it has one |
| AutoCleanup.WithoutIdsNone | src/app/services/auto-cleanup.service.ts:56-73 | deleting no ids leaves the orders as they were |
| AdminAuth.FindAdmin | src/app/services/admin-auth.service.ts:48-51 | the admin found has the email and the password hash and is the first such; none exactly when no admin has both |
| AdminAuth.PatchLastLogin | src/app/services/admin-auth.service.ts:60-62 | the PATCH sets lastLogin on the first admin with the id and leaves every other admin as it was |
| AdminAuth.AnyGranted | src/app/services/admin-auth.service.ts:128-130 | true exactly when one of the wanted permissions is granted |
| AdminAuth.RoleName | src/app/services/admin-auth.service.ts:180-189 | a known role gets its display name, an unknown role is shown as itself |
| AdminAuth.AdminAuthService.constructor | src/app/services/admin-auth.service.ts:16-38 | a stored admin becomes the current admin; a stored value that does not parse clears both session keys; an absent or empty value changes nothing |
| AdminAuth.AdminAuthService.HasAnyPermission | src/app/services/admin-auth.service.ts:122-131 | true exactly when some permission of the list is held by the current admin (false without one) |
| AdminAuth.AdminAuthService.RoleDisplayName | src/app/services/admin-auth.service.ts:176-189 | 'Unknown' without an admin, the display name of a known role, the raw role otherwise |
| AdminAuth.AdminAuthService.Login | src/app/services/admin-auth.service.ts:43-77 | without a matching admin the result is 'Invalid email or password' and nothing changes; with one, the admin with lastLogin set to now becomes current, is stored with the flag in localStorage and the store's record gets the new lastLogin; afterwards the admin is logged in with exactly its permissions |
| AdminAuth.AdminAuthService.Logout | src/app/services/admin-auth.service.ts:82-86 | both session keys are removed and there is no current admin, so nothing is permitted and the role shows 'Unknown' |
| AdminAuth.AdminAuthService.GetAllAdmins | src/app/services/admin-auth.service.ts:195-201 | only a super admin gets the admin list; anyone else gets 'Insufficient permissions' |
| AdminAuth.AnyOfOne | src/app/services/admin-auth.service.ts:110-131 | asking for any of one permission is asking for that permission |
| AdminAuth.AnyOfMore | src/app/services/admin-auth.service.ts:122-131 | asking for more permissions can only grant more |
| AdminAuth.AdminLogout | src/app/pages/admin/admin-orders/admin-orders.ts:699-702 | the session ends, nothing is permitted any more, and the storefront's home page opens |
| RoleGuard.Guard.constructor | src/app/guards/role-guard.ts:10-13 | the guard starts with no navigation |
| RoleGuard.Guard.CanActivate | src/app/guards/role-guard.ts:15-43 | the route opens exactly when the admin is logged in and holds the route's permission, if it names one; a logged-out visitor is sent to the admin login, a logged-in admin without the permission to the dashboard with the error |
| UserAuth.GenerateId | src/app/services/user-auth.ts:14-16 | the id drawn lies between 100000 and 999999 |
| UserAuth.NewUser | src/app/services/user-auth.ts:42-48 | the posted user keeps the name and email, drops confirmPassword, stores the password hash and the drawn user_id |
| UserAuth.FirstFreeDraw | src/app/services/user-auth.ts:37-40 | the attempt that ends the retries is the first whose user_id nobody has; every earlier draw collided, and none is found exactly when every draw collided |
| UserAuth.RegistrationFresh | src/app/services/user-auth.ts:18-53 | a registration that succeeds stores a user whose name, email and user_id no earlier user has, with a six-digit user_id and the password hash |
| UserAuth.SixDigits | src/app/services/user-auth.ts:15 | every number the draw can give is written with six digits |
| UserAuth.NameCheckedFirst | src/app/services/user-auth.ts:29-35 | a taken name is refused as 'Username not available' whatever the email |
| UserAuth.UserAuthService.constructor | src/app/services/user-auth.ts:12 | the service works on the given store and localStorage |
| UserAuth.UserAuthService.Register | src/app/services/user-auth.ts:18-53 | the answer is the one the registration rules give for the users stored before; only a success appends the new user, and no other collection changes |
| UserAuth.UserAuthService.Login | src/app/services/user-auth.ts:56-76 | no user with the name gives 'Username is incorrect', a wrong hash 'Password is incorrect', and neither touches localStorage; a match stores isLoggedIn 'true' and the user's user_id, so the shopper is logged in |
| UserAuth.UserAuthService.Logout | src/app/services/user-auth.ts:78-81 | both session keys are removed, so the shopper is logged out |
| UserAuth.FirstNamed | src/app/services/user-auth.ts:61 | the index of the first user with the name |
| AdminSettings.PasswordMatch | src/app/pages/admin/admin-settings/admin-settings.ts:92-110 | 'same as current' exactly when the current and new passwords are both given and equal; 'mismatch' exactly when that test passes and a given confirmation differs from a given new password |
| AdminSettings.PassingPasswordsFilled | src/app/pages/admin/admin-settings/admin-settings.ts:92-110 | with all three fields filled, the form passes exactly when the new password differs from the current one and is confirmed |
| AdminSettings.FirstError | src/app/pages/admin/admin-settings/admin-settings.ts:225-231 | the error found is the control's first error in the checking order; none exactly when the control has none of them |
| AdminSettings.FieldError | src/app/pages/admin/admin-settings/admin-settings.ts:223-234 | '' for an untouched control or one without errors; 'required' beats 'minlength', whose message names 6 characters |
| AdminSettings.FieldErrorFollowsOrder | src/app/pages/admin/admin-settings/admin-settings.ts:223-234 | for a touched control with errors the message is that of its first error in the order required, minlength, pattern, email, mismatch, same-as-current |
| AdminSettings.ProfileFieldError | src/app/pages/admin/admin-settings/admin-settings.ts:239-247 | '' unless the control is touched with a required, minlength or email error; then the first of these in that order, minlength naming 2 characters |
| AdminSettings.IndexOfAdmin | src/app/pages/admin/admin-settings/admin-settings.ts:142 | the index of the first admin with the id, or -1 exactly when none has it |
| AdminSettings.ReplaceAdmin | src/app/pages/admin/admin-settings/admin-settings.ts:142 | the PUT replaces the first admin with the id and changes nothing when there is none |
| AdminSettings.AdminSettingsPage.constructor | src/app/pages/admin/admin-settings/admin-settings.ts:28-48 | the page starts with empty forms, no messages and both panels closed |
| AdminSettings.AdminSettingsPage.OnInit | src/app/pages/admin/admin-settings/admin-settings.ts:50-62 | without a current admin the admin login page opens; otherwise the profile form shows the admin's name and email |
| AdminSettings.AdminSettingsPage.OnChangePassword | src/app/pages/admin/admin-settings/admin-settings.ts:115-159 | an invalid form or a current password whose hash is not the stored one changes no admin; otherwise the admin with only the password replaced by the new hash is written to the store and to localStorage and becomes the page's admin when the PUT succeeds, and nothing is written when it fails |
| AdminSettings.AdminSettingsPage.OnUpdateProfile | src/app/pages/admin/admin-settings/admin-settings.ts:164-197 | an invalid form changes nothing; otherwise the admin with the new name and email is written to the store and to localStorage when the PUT succeeds, with the form closed, and nothing is written when it fails |
| AdminSettings.AdminSettingsPage.TogglePasswordChange | src/app/pages/admin/admin-settings/admin-settings.ts:202-208 | the password panel flips, the profile panel closes, the form and both messages are cleared |
| AdminSettings.AdminSettingsPage.ToggleProfileEdit | src/app/pages/admin/admin-settings/admin-settings.ts:213-218 | the profile panel flips, the password panel closes and both messages are cleared |
| CustomerNotifications.UnreadNewestFirstCorrect | src/app/components/customer-notifications/customer-notifications.ts:56-63 | the box holds exactly the unread fetched notifications, each as often as fetched, newest first |
| CustomerNotifications.WithoutNotification | src/app/components/customer-notifications/customer-notifications.ts:74 | the notifications kept are exactly those with another id |
| CustomerNotifications.WithoutNotificationAppend | src/app/components/customer-notifications/customer-notifications.ts:74 | the removal keeps the order: it splits over a concatenation |
| CustomerNotifications.WithoutNotificationSorted | src/app/components/customer-notifications/customer-notifications.ts:74 | removing an id keeps a newest-first box newest first |
| CustomerNotifications.CustomerNotificationsBox.constructor | src/app/components/customer-notifications/customer-notifications.ts:40-45 | the box starts empty |
| CustomerNotifications.CustomerNotificationsBox.OnInit | src/app/components/customer-notifications/customer-notifications.ts:47-68 | a logged-in shopper with a known email gets the unread fetched notifications, newest first; otherwise, or when the request fails, the box is unchanged |
| CustomerNotifications.CustomerNotificationsBox.MarkAsRead | src/app/components/customer-notifications/customer-notifications.ts:70-80 | a recorded mark removes every notification with the id and keeps the order, so a newest-first box stays newest first; a failure changes nothing; no notification is added |
| AdminNotifications.NewestFirstCorrect | src/app/components/admin-notifications/admin-notifications.ts:59-61 | the list holds the fetched notifications, each as often as fetched, newest first |
| AdminNotifications.IndexOfNotification | src/app/components/admin-notifications/admin-notifications.ts:73 | the index of the first notification with the id, or -1 exactly when none has it |
| AdminNotifications.AdminNotificationsList.constructor | src/app/components/admin-notifications/admin-notifications.ts:51-53 | the list starts empty |
| AdminNotifications.AdminNotificationsList.OnInit | src/app/components/admin-notifications/admin-notifications.ts:55-67 | the fetched notifications newest first; a failed request leaves the list as it was |
| AdminNotifications.AdminNotificationsList.MarkAsRead | src/app/components/admin-notifications/admin-notifications.ts:69-82 | once recorded, the first notification with the id is marked read and nothing else changes; the length and order stay; a failure or an unknown id changes nothing |
| CustomerNotifications.ConsNewestFirst | src/app/components/customer-notifications/customer-notifications.ts:62 | a notification no older than any of a newest-first list can lead it |
| AdminCustomers.OrdersOf | src/app/pages/admin/admin-customers/admin-customers.ts:141-143 | a customer's orders are exactly the stored orders whose customer information carries that email |
| AdminCustomers.AllWithStats | src/app/pages/admin/admin-customers/admin-customers.ts:140-147 | every customer, in the same order, gets the count and summed totals of its own orders |
| AdminCustomers.AddOrderStats | src/app/pages/admin/admin-customers/admin-customers.ts:140-147 | the forEach gives exactly AllWithStats: each customer its own count and total, nothing else changed |
| AdminCustomers.SpentMorePreorder | src/app/pages/admin/admin-customers/admin-customers.ts:167 | the top-spender comparator is a total preorder, so the sort is well defined |
| AdminCustomers.TopSpendersCorrect | src/app/pages/admin/admin-customers/admin-customers.ts:165-168 | at most five customers who spent something, in descending order of spending, and a customer who spent something is left out only when five are shown, none of whom spent less |
| AdminCustomers.RevenueWithoutOrders | src/app/pages/admin/admin-customers/admin-customers.ts:151-152 | without orders the revenue is 0, so the 0 / 0 of the average is the only division by zero |
| AdminCustomers.TotalUnderAdd | src/app/pages/admin/admin-customers/admin-customers.ts:141-146 | adding an email not yet counted adds exactly the totals of that email's orders |
| AdminCustomers.NothingUnderNoEmails | src/app/pages/admin/admin-customers/admin-customers.ts:141-146 | no order is counted under an empty set of emails |
| AdminCustomers.RevenueCountsOrdersOnce | src/app/pages/admin/admin-customers/admin-customers.ts:140-151 | with distinct customer emails the revenue is the sum of the totals of exactly the orders placed under some customer's email, each once |
| AdminCustomers.FiltersIgnoreCase | src/app/pages/admin/admin-customers/admin-customers.ts:177-195 | lower-casing what is typed into the name, email and city filters changes no verdict |
| AdminCustomers.ComparatorPreorder | src/app/pages/admin/admin-customers/admin-customers.ts:222-243 | the column comparator is a total preorder for every column and direction |
| AdminCustomers.ColumnSortedCorrect | src/app/pages/admin/admin-customers/admin-customers.ts:221-245 | sorting keeps every customer as often as listed and orders the list by the column in the direction |
| AdminCustomers.FilteredListingCorrect | src/app/pages/admin/admin-customers/admin-customers.ts:174-216 | the table holds exactly the customers passing every active filter, each as often as loaded, ordered by the sort column |
| AdminCustomers.CustomerTier | src/app/pages/admin/admin-customers/admin-customers.ts:374-379 | VIP exactly from 1000, Gold exactly from 500 below 1000, Silver exactly from 100 below 500, Bronze exactly below 100 |
| AdminCustomers.TierMonotone | src/app/pages/admin/admin-customers/admin-customers.ts:374-379 | spending more never lowers the tier |
| AdminCustomers.GenderBadgeClass | src/app/pages/admin/admin-customers/admin-customers.ts:362-369 | male, female and other, in any case, get their badges; any other gender, or none, the light badge |
| AdminCustomers.AdminCustomersPage.constructor | src/app/pages/admin/admin-customers/admin-customers.ts:58-104 | an empty page at page 1 of 15 rows, sorted by name ascending, no filters, no statistics |
| AdminCustomers.AdminCustomersPage.CalculateCustomerStats | src/app/pages/admin/admin-customers/admin-customers.ts:138-169 | the customers get their order statistics and the page's figures are those over them |
| AdminCustomers.AdminCustomersPage.UpdatePagination | src/app/pages/admin/admin-customers/admin-customers.ts:250-259 | the page count fits the filtered list, a page past the end falls back to 1, and the shown rows are that page |
| AdminCustomers.AdminCustomersPage.SortCustomers | src/app/pages/admin/admin-customers/admin-customers.ts:221-245 | the filtered list becomes its sort by the current column and direction |
| AdminCustomers.AdminCustomersPage.ApplyFilters | src/app/pages/admin/admin-customers/admin-customers.ts:174-216 | the filtered list is the sorted list of customers passing the filters, and the pages are recounted |
| AdminCustomers.AdminCustomersPage.ShowLoaded | src/app/pages/admin/admin-customers/admin-customers.ts:120-127 | the loaded users become the customers with their statistics, and the figures, table and page are rebuilt from them |
| AdminCustomers.AdminCustomersPage.LoadCustomers | src/app/pages/admin/admin-customers/admin-customers.ts:113-133 | when users and orders both arrive the page shows them; when either request fails only the loading flag changes; loading ends either way |
| AdminCustomers.AdminCustomersPage.ChangePage | src/app/pages/admin/admin-customers/admin-customers.ts:264-269 | only pages 1..totalPages are taken; another page number changes nothing |
| AdminCustomers.AdminCustomersPage.ChangeItemsPerPage | src/app/pages/admin/admin-customers/admin-customers.ts:274-278 | the new page size restarts at page 1, with the pages recounted |
| AdminCustomers.AdminCustomersPage.SortBy | src/app/pages/admin/admin-customers/admin-customers.ts:283-292 | the same column flips its direction, a new column sorts ascending; the list is re-sorted and repaginated |
| AdminCustomers.AdminCustomersPage.SortIcon | src/app/pages/admin/admin-customers/admin-customers.ts:297-300 | an arrow exactly on the sorted column, up exactly when ascending |
| AdminCustomers.AdminCustomersPage.ClearFilters | src/app/pages/admin/admin-customers/admin-customers.ts:305-315 | every filter off, and the table is every customer, sorted |
| AdminCustomers.AdminCustomersPage.ViewCustomerDetails | src/app/pages/admin/admin-customers/admin-customers.ts:320-323 | the dialog opens on the customer |
| AdminCustomers.AdminCustomersPage.CloseCustomerDetails | src/app/pages/admin/admin-customers/admin-customers.ts:328-331 | the dialog closes and forgets the customer |
| AdminCustomers.AdminCustomersPage.ViewCustomerOrders | src/app/pages/admin/admin-customers/admin-customers.ts:336-341 | the orders page opens filtered on the customer's email |
| CheckoutPayment.UpiIgnoresCase | src/app/pages/checkout-payment/checkout-payment.ts:146-156 | an id and its lower-cased form are accepted alike |
| CheckoutPayment.UpiBareSuffix | src/app/pages/checkout-payment/checkout-payment.ts:146-156 | any text, even none, followed by a provider suffix ('@gpay', '@phonepe', '@paytm' in any case) is accepted, since only the suffix is checked; an empty id never is |
| CheckoutPayment.FromForm | src/app/pages/checkout-payment/checkout-payment.ts:102-108 | the holder name, card number, expiry, CVV and UPI id come from the form, and the payment type is kept |
| CheckoutPayment.PaymentError | src/app/pages/checkout-payment/checkout-payment.ts:110-128 | no message exactly when a card payment has all five card fields and a UPI payment a valid id; an empty UPI id asks for one; cash on delivery always passes |
| CheckoutPayment.CheckStockAvailability | src/app/pages/checkout-payment/checkout-payment.ts:162-196 | no answer exactly when some line's product cannot be fetched; otherwise true exactly when every line's quantity is within its product's stock, so an empty cart passes |
| CheckoutPayment.CheckedSaleIsExact | src/app/pages/checkout-payment/checkout-payment.ts:322-346 | after a passing stock check on lines with distinct products, each product's stock drops by exactly its line's quantity, so the clamp at 0 never applies |
| CheckoutPayment.CheckedPrefix | src/app/pages/checkout-payment/checkout-payment.ts:162-196 | the lines before the last still pass the stock check, are distinct, and none of them names the last line's product |
| CheckoutPayment.DashIndex | src/app/pages/checkout-payment/checkout-payment.ts:379 | the position of the first '-', or -1 exactly when there is none |
| CheckoutPayment.OrderNumberRoundTrip | src/app/pages/checkout-payment/checkout-payment.ts:376-380 | an order number reads back as the time it was made at and floor(random × 1000), which is below 1000 |
| CheckoutPayment.DeliveryDay | src/app/pages/checkout-payment/checkout-payment.ts:386-390 | the start of a day, and the day that holds the moment five days from now |
| CheckoutPayment.OrderSnapshot | src/app/pages/checkout-payment/checkout-payment.ts:208-227 | the saved order carries the cart's lines, subtotal = the cart total, 8% tax, no shipping, total = subtotal + tax, status confirmed, payment pending exactly for cash on delivery, the address's contact as customer, and no id yet |
| CheckoutPayment.GroupDigitsShape | src/app/pages/checkout-payment/checkout-payment.ts:447 | a grouped number has a space exactly at every fifth position, digits elsewhere, never a trailing space, and one space per full group of four that another digit follows |
| CheckoutPayment.DigitsOnlyAppend | src/app/pages/checkout-payment/checkout-payment.ts:446 | dropping the non-digits works piecewise on a concatenation |
| CheckoutPayment.GroupDigitsDigits | src/app/pages/checkout-payment/checkout-payment.ts:447 | dropping the spaces of a grouped number gives its digits back |
| CheckoutPayment.CardNumberKeepsDigits | src/app/pages/checkout-payment/checkout-payment.ts:445-449 | the card number keeps every digit typed, in order, and formatting it again changes nothing |
| CheckoutPayment.FormatCvv | src/app/pages/checkout-payment/checkout-payment.ts:452-456 | the first four digits typed, or all of them when there are fewer; formatting again changes nothing |
| CheckoutPayment.YearOptions | src/app/pages/checkout-payment/checkout-payment.ts:58-62 | eleven years, from this year on |
| CheckoutPayment.PlacedOrder | src/app/pages/checkout-payment/checkout-payment.ts:208-306 | the stored order is the snapshot with the order number generated from the time and the draw, under the id the store gives it |
| CheckoutPayment.PlaceOrder | src/app/pages/checkout-payment/checkout-payment.ts:236-346 | a saved order is appended to the orders, each ordered product's stock is decremented with the clamp, the ordered lines leave the stored cart, the checkout address leaves sessionStorage, and users and admins stay |
| CheckoutPayment.CheckoutPaymentPage.constructor | src/app/pages/checkout-payment/checkout-payment.ts:20-63 | not processing, card selected, an empty payment, and the eleven expiry years |
| CheckoutPayment.CheckoutPaymentPage.OnPaymentTypeChange | src/app/pages/checkout-payment/checkout-payment.ts:393-414 | the new type is selected and every payment field, in the payment and in the form, is emptied |
| CheckoutPayment.CheckoutPaymentPage.FormatInputs | src/app/pages/checkout-payment/checkout-payment.ts:445-456 | the form holds the formatted card number and CVV; the payment is untouched |
| CheckoutPayment.CheckoutPaymentPage.OnSubmit | src/app/pages/checkout-payment/checkout-payment.ts:99-143 | ignored while processing; otherwise the form is copied into the payment; an invalid payment raises its message; only a valid payment with passing stock and a loaded address reaches the save, and only a saved order changes orders, stock and cart, sets the order number and opens its tracking page; a failed save shows the failure toast; a valid payment whose stock check fails shows the out-of-stock toast and stays on the page, and one whose products cannot all be fetched gets no answer; users and admins never change |
| CheckoutPayment.CheckoutPaymentPage.ProcessPayment | src/app/pages/checkout-payment/checkout-payment.ts:203-285 | without a shipping address building the order fails and nothing is written; a successful POST places the snapshot order and navigates to its tracking page; a failed one shows the failure toast and writes nothing; processing ends in both |
| ShoppingCart.CalculateCartTotals | src/app/services/cart-service.ts:152-161 | the lines are kept as they are, and the totals are the sum of their quantities and of their prices |
| ShoppingCart.TotalQuantityAppend | src/app/services/cart-service.ts:153 | the quantity total splits over a concatenation |
| ShoppingCart.CartTotalsUpdate | src/app/services/cart-service.ts:152-161 | an added line adds its quantity and price to the totals; a replaced line changes them by the difference |
| ShoppingCart.FindLineByProduct | src/app/services/cart-service.ts:57 | the first line of the product, or -1 exactly when none has it |
| ShoppingCart.FindLineById | src/app/services/cart-service.ts:103 | the first line with the id, or -1 exactly when none has it |
| ShoppingCart.QuantityInCart | src/app/services/cart-service.ts:169-176 | 0 for a product not in the cart, otherwise the quantity of the first line of that product |
| ShoppingCart.ItemCount | src/app/services/cart-service.ts:142-146 | the number of lines, not of units; 0 exactly when no product is in the cart |
| ShoppingCart.FindLineByProductSameIds | src/app/services/cart-service.ts:57 | lists naming the same products position by position find a product at the same place |
| ShoppingCart.WithoutLine | src/app/services/cart-service.ts:92-93 | after the DELETE the lines are exactly those with another id |
| ShoppingCart.ReplaceLine | src/app/services/cart-service.ts:68 | the PUT keeps the number of lines, leaves every line with another id as it was, and the new line is there when one had the id |
| ShoppingCart.LoadedCart | src/app/services/cart-service.ts:22-51 | the published cart's totals are those of its lines; a failed fetch of the cart or of any line's product gives the empty cart, and otherwise it holds each stored line with its product attached, position by position |
| ShoppingCart.AddRequest | src/app/services/cart-service.ts:53-84 | for the requested product id: a product with no line gets a POST of a new line at quantity × price; a product with a line gets a PUT of that line with the quantity raised and the price recomputed at the current price; a line without an id fails with 'Existing cart item missing ID' |
| ShoppingCart.AddToCartMerges | src/app/services/cart-service.ts:53-90 | adding raises the product's quantity in the cart by the amount added, leaves every other product's quantity alone, and raises the line count by one only for a product that had no line |
| ShoppingCart.FindLineByProductPrefix | src/app/services/cart-service.ts:57 | a product found in a prefix is found at the same place in the whole list; one found first at the next line is found there |
| ShoppingCart.Requantified | src/app/services/cart-service.ts:113-118 | the line keeps its ids and product and gets the new quantity, priced at its product's price, or 0 without a product |
| ShoppingCart.RemoveLinesMembers | src/app/services/cart-service.ts:124-136 | after deleting a run of lines a line survives exactly when none of the deleted lines shared its id |
| ShoppingCart.ClearLeavesNothing | src/app/services/cart-service.ts:124-136 | clearing a cart whose lines all have ids leaves no line behind |
| ShoppingCart.CartService.constructor | src/app/services/cart-service.ts:14-20 | the service starts with the loaded cart |
| ShoppingCart.CartService.LoadCart | src/app/services/cart-service.ts:22-51 | the current cart becomes the stored lines with their products and totals, or the empty cart on a failure |
| ShoppingCart.CartService.AddToCart | src/app/services/cart-service.ts:53-90 | an unknown product fails and writes nothing; otherwise the store gets the merge or the new line, the call succeeds exactly when the write finds its target, the cart is reloaded on success, and no other collection changes |
| ShoppingCart.CartService.RemoveFromCart | src/app/services/cart-service.ts:92-99 | the line leaves the stored cart; the call succeeds and reloads exactly when the line was found; nothing else changes |
| ShoppingCart.CartService.UpdateQuantity | src/app/services/cart-service.ts:101-122 | an unknown line fails with 'Cart item not found' and changes nothing; a quantity of 0 or less deletes the line; otherwise only that line gets the new quantity and price; success reloads the cart |
| ShoppingCart.CartService.RemoveEach | src/app/services/cart-service.ts:126-128 | the DELETE requests remove the lines one by one, and all succeed exactly when every line is found in turn |
| ShoppingCart.CartService.ClearCart | src/app/services/cart-service.ts:124-136 | every line of the current cart is deleted from the store; success with a non-empty cart reloads it; an empty cart issues no request and reloads nothing |
| CartPage.ProductImage | src/app/pages/cart/cart.ts:143-145 | the placeholder exactly when the line has no product, no images, or an empty first image; otherwise the first image |
| CartPage.CartPageView.constructor | src/app/pages/cart/cart.ts:15-22 | the page shows the service's cart, with no alert and no navigation |
| CartPage.CartPageView.RemoveItem | src/app/pages/cart/cart.ts:70-91 | a line without an id raises the missing-id alert and changes nothing; without confirmation nothing changes; a confirmed removal deletes the line from the stored cart; stock and orders never change |
| CartPage.CartPageView.UpdateQuantity | src/app/pages/cart/cart.ts:43-67 | a quantity below one goes to removal (which waits for confirmation); a line without an id raises the alert and changes nothing; otherwise the service writes that line with the new quantity and price; stock and orders never change |
| CartPage.CartPageView.IncrementQuantity | src/app/pages/cart/cart.ts:131-134 | the line is written with one unit more |
| CartPage.CartPageView.DecrementQuantity | src/app/pages/cart/cart.ts:137-140 | the line is written with one unit less, and a line at one unit is removed once confirmed |
| CartPage.CartPageView.ClearCart | src/app/pages/cart/cart.ts:94-106 | only a confirmed clear deletes the current cart's lines from the store |
| CartPage.CartPageView.ProceedToCheckout | src/app/pages/cart/cart.ts:114-122 | an empty cart raises the empty-cart alert and stays; otherwise the address step opens |
| ProductDetail.FirstImage | src/app/pages/product-detail/product-detail.ts:56 | the first image exactly when the product has images |
| ProductDetail.ProductDetailPage.constructor | src/app/pages/product-detail/product-detail.ts:19-31 | loading, no product, nothing added, not in the wishlist |
| ProductDetail.ProductDetailPage.LoadProduct | src/app/pages/product-detail/product-detail.ts:51-75 | a fetched product is shown with its first image selected and the counter reset to 0; a failed fetch shows no product; loading ends either way |
| ProductDetail.ProductDetailPage.AddToCart | src/app/pages/product-detail/product-detail.ts:113-129 | acts only with a product loaded, nothing added yet and stock left; a successful add sets the counter to 1 and takes one unit from the local stock, so counter plus local stock stays the same; only the local copy of the product changes and the stored stock is untouched |
| ProductDetail.ProductDetailPage.IncreaseQty | src/app/pages/product-detail/product-detail.ts:131-144 | acts only while local stock is left; either nothing changes or the counter rises by 1 and the local stock drops by 1; counter plus local stock stays the same; stored stock untouched |
| ProductDetail.ProductDetailPage.DecreaseQty | src/app/pages/product-detail/product-detail.ts:146-185 | without a product, or when its first cart line has no id, nothing changes; above 1 that line is written back with one unit less, at 1 or below it is deleted; the counter drops by 1 or to 0 exactly when the store had the line, with the units returned to the local stock; counter plus local stock stays the same; stored stock untouched |
| ProductDetail.ProductDetailPage.ToggleWishlist | src/app/pages/product-detail/product-detail.ts:189-225 | without a product nothing changes; a product in the wishlist leaves it when its entry is known and the request succeeds; any other product enters it when the request succeeds; the flag changes only on success |
| OrderTracking.StatusIndex | src/app/pages/order-tracking/order-tracking.ts:90-98 | at most 4; 0 exactly for a status outside confirmed, processing, shipped and delivered (pending, cancelled and unknown ones); 4 exactly for delivered |
| OrderTracking.FindByNumber | src/app/pages/order-tracking/order-tracking.ts:65 | an order from the list with the route's number, or none exactly when no order has it |
| OrderTracking.FindByNumberFirst | src/app/pages/order-tracking/order-tracking.ts:65 | the order found is the first with that number |
| OrderTracking.FormatPrice | src/app/pages/order-tracking/order-tracking.ts:114-117 | '$0.00' for a missing, NaN or zero price, otherwise '$' and the price to two decimals |
| OrderTracking.StatusColor | src/app/pages/order-tracking/order-tracking.ts:132-142 | 'secondary' exactly for a status outside the six; 'success' exactly for shipped and delivered; 'danger' exactly for cancelled |
| OrderTracking.ReachedSteps | src/app/pages/order-tracking/order-tracking.ts:87-103 | the corrected marking: a step is done exactly when the order has reached the status it stands for |
| OrderTracking.ReachedStepsDelivered | src/app/pages/order-tracking/order-tracking.ts:87-103 | under the corrected marking 'Delivered' is done only for a delivered order and 'Order Confirmed' for an order at least confirmed |
| OrderTracking.OrderTrackingPage.constructor | src/app/pages/order-tracking/order-tracking.ts:15-34 | loading, no order, and the four steps confirmed, processing, shipped, delivered, none done |
| OrderTracking.OrderTrackingPage.UpdateTrackingSteps | src/app/pages/order-tracking/order-tracking.ts:87-103 | without an order the steps stay; otherwise step i is done exactly when i is at most the status index, and nothing else about the steps changes |
| OrderTracking.OrderTrackingPage.OnRoute | src/app/pages/order-tracking/order-tracking.ts:36-85 | no number gives 'No order number provided' and loads nothing; a failed fetch gives 'Failed to load order information'; otherwise the first order with the number is shown and its steps marked, keeping the error, or 'Order not found'; without a shown order the steps are unchanged; loading ends in every case |
| OrderTracking.ShownStepsPrefix | src/app/pages/order-tracking/order-tracking.ts:100-102 | the marked steps are a prefix of length min(index + 1, 4), and the first step is always marked |
| OrderTracking.ShownStepsRunAhead | src/app/pages/order-tracking/order-tracking.ts:90-102 | as written, the marking runs one step ahead: a shipped order shows 'Delivered' done, a confirmed one 'Processing', a pending one 'Order Confirmed' |
| OrderTracking.ShownSteps | src/app/pages/order-tracking/order-tracking.ts:97-102 | the page's marking as written: one mark for each of the four steps (which ones, ShownStepsPrefix states) |
| CheckoutAddress.FormatPhoneNumber | src/app/pages/checkout-address/checkout-address.ts:87-92 | the first ten digits typed, or all of them when there are fewer; formatting again changes nothing |
| CheckoutAddress.FormatZipCode | src/app/pages/checkout-address/checkout-address.ts:95-100 | the first six digits typed, or all of them when there are fewer; formatting again changes nothing |
| CheckoutAddress.CheckoutAddressPage.constructor | src/app/pages/checkout-address/checkout-address.ts:16-43 | a blank address with country 'USA' that is not the default; nothing touched, no navigation |
| CheckoutAddress.CheckoutAddressPage.OnInit | src/app/pages/checkout-address/checkout-address.ts:45-55 | an empty cart sends the shopper to the cart page; otherwise nothing changes |
| CheckoutAddress.CheckoutAddressPage.OnSubmit | src/app/pages/checkout-address/checkout-address.ts:57-70 | a valid form stores the address under 'checkoutAddress' and opens the payment step, leaving the controls' touched state; an invalid one stores nothing and marks the controls touched |
| CheckoutAddress.CheckoutAddressPage.OnPhoneInput | src/app/pages/checkout-address/checkout-address.ts:87-92 | the phone field, and the input shown, hold the formatted digits; no other field, touched state or navigation changes |
| CheckoutAddress.CheckoutAddressPage.OnZipInput | src/app/pages/checkout-address/checkout-address.ts:95-100 | the postal code, and the input shown, hold the formatted digits; no other field, touched state or navigation changes |
| SearchResults.DiscountedPrice | src/app/pages/search-results/search-results.ts:72-77 | the price less its discount percentage when the discount is positive, the price otherwise; never negative and never above the price for a discount between 0 and 100, and strictly lower for a positive discount on a positive price |
| SearchResults.RatingStars | src/app/pages/search-results/search-results.ts:83-101 | slot i is 'full' below floor(rating), 'half' at floor(rating) when the fraction is at least a half, and 'empty' elsewhere; max(5, full + half) slots, so exactly five for a rating from 0 to 5 |
| SearchResults.SearchResultsPage.constructor | src/app/pages/search-results/search-results.ts:15-24 | an empty query and result list, not loading, no 'no results' |
| SearchResults.SearchResultsPage.OnQuery | src/app/pages/search-results/search-results.ts:26-70 | the query is kept; no ids give no results; a failed request empties the list; otherwise the list is the fetched products with the nulls dropped, in id order; 'no results' exactly when the list is empty; loading ends |
| ProductList.Capitalized | src/app/pages/product-list/product-list.ts:93-96 | the formatted text has the input's length and, at every position, the character formatCategoryName's split, capitalise and join puts there |
| ProductList.FormatCategoryName | src/app/pages/product-list/product-list.ts:92-97 | same length as the route name; every '-' becomes a space; the first letter of each '-'-separated word is upper-cased; every other character is kept |
| ProductList.FormatCategoryNameIdempotent | src/app/pages/product-list/product-list.ts:92-97 | formatting an already formatted name changes nothing |
| ProductList.InsertBrand | src/app/pages/product-list/product-list.ts:210-214 | adding a brand to the list gives exactly the old brands plus the new one |
| ProductList.InsertBrandSorted | src/app/pages/product-list/product-list.ts:210-214 | adding a brand to a sorted list of distinct brands keeps it sorted and distinct |
| ProductList.SortedBrands | src/app/pages/product-list/product-list.ts:210-214 | the brand list is sorted, without repeats, and holds exactly the non-empty brands of the loaded products |
| ProductList.LowestPrice | src/app/pages/product-list/product-list.ts:217-218 | Math.min of the prices is +Infinity exactly when no product is loaded, and never -Infinity |
| ProductList.LowestPriceIsMin | src/app/pages/product-list/product-list.ts:217-218 | a finite lowest price is the price of a loaded product and no loaded product costs less |
| ProductList.HighestPrice | src/app/pages/product-list/product-list.ts:217-219 | Math.max of the prices is -Infinity exactly when no product is loaded, and never +Infinity |
| ProductList.HighestPriceIsMax | src/app/pages/product-list/product-list.ts:217-219 | a finite highest price is the price of a loaded product and no loaded product costs more |
| ProductList.DefaultFiltersKeepAll | src/app/pages/product-list/product-list.ts:208-232 | under the settings a load leaves (no brand, no stock or rating limit, the price range of all products), every loaded product with a non-negative rating passes |
| ProductList.ComparatorPreorder | src/app/pages/product-list/product-list.ts:276-301 | applySorting's comparator for any column and direction is total and transitive, so sorting by it is well defined |
| ProductList.SortedProductsCorrect | src/app/pages/product-list/product-list.ts:273-302 | applySorting's result is a reordering of the list, ordered by the chosen column and direction, and the list itself when no column is chosen |
| ProductList.ListingCorrect | src/app/pages/product-list/product-list.ts:242-270 | the filtered list holds exactly the loaded products passing every active filter, each as often as loaded; unsorted it keeps the loaded order, sorted it is ordered by the column |
| ProductList.GetStars | src/app/pages/product-list/product-list.ts:364-379 | floor(rating) full stars first, then hollow stars; max(5, full stars plus one for a half) stars in all |
| ProductList.Responses | src/app/pages/product-list/product-list.ts:180-194 | one response per id, in id order, the response for that id |
| ProductList.Present | src/app/pages/product-list/product-list.ts:197 | the products received, without the nulls: never more than the responses, exactly the products found, and all of them in order when every request found one |
| ProductList.Batches | src/app/pages/product-list/product-list.ts:172-178 | the ids cut into consecutive batches that concatenate back to the ids, each of one to three ids and all but the last of exactly three |
| ProductList.ConcatPrefix | src/app/pages/product-list/product-list.ts:187-193 | the first batches' ids are a prefix of all the ids |
| ProductList.FetchBatches | src/app/pages/product-list/product-list.ts:180-194 | the batches fetched in turn give the responses for all ids in id order, or fail exactly when some request fails |
| ProductList.ChunkOf | src/app/pages/product-list/product-list.ts:140-142 | a chunk holds at most fifty products |
| ProductList.ChunkStep | src/app/pages/product-list/product-list.ts:117-146 | the first k chunks followed by chunk k are the first k + 1 chunks, so appending chunks rebuilds the product list |
| ProductList.ChunkCache.constructor | src/app/pages/product-list/product-list.ts:161-164 | the chunk cache and the set of loaded chunks start empty |
| ProductList.ChunkCache.Clear | src/app/pages/product-list/product-list.ts:161-164 | clearCache empties the chunk cache and the set of loaded chunks |
| ProductList.ChunkCache.Store | src/app/pages/product-list/product-list.ts:119-145 | the chunk is cached under its number and the number is marked loaded; nothing else changes |
| ProductList.ProductListPage.constructor | src/app/pages/product-list/product-list.ts:17-60 | nothing loaded, filtered or shown, page 1 of 0, no brand, stock or rating filter, price range 0 to 10000, no sort column, ascending |
| ProductList.ProductListPage.InitializeFilters | src/app/pages/product-list/product-list.ts:208-222 | the brand list becomes the sorted distinct brands of the loaded products, and the price range in force and in the panel becomes their lowest and highest price; nothing else changes |
| ProductList.ProductListPage.ResetFilters | src/app/pages/product-list/product-list.ts:224-232 | no brand, stock or rating filter, in force and in the panel, and page 1; the price range and everything else are kept |
| ProductList.ProductListPage.UpdatePagination | src/app/pages/product-list/product-list.ts:304-312 | the page count is the filtered length over ten rounded up; the current page is kept but cut to the page count (page 1 when empty); the shown products are at most ten, that page of the filtered list |
| ProductList.ProductListPage.ApplySorting | src/app/pages/product-list/product-list.ts:273-302 | the filtered list is sorted by the chosen column, or left alone without one; nothing else changes |
| ProductList.ProductListPage.ApplyFilters | src/app/pages/product-list/product-list.ts:234-271 | the panel's settings come into force; the filtered list is the loaded products passing them, sorted; the page is recomputed |
| ProductList.ProductListPage.OnBrandChange | src/app/pages/product-list/product-list.ts:314-323 | the brand is added to the panel's brands when ticked and removed when unticked; nothing is applied yet |
| ProductList.ProductListPage.OnSortChange | src/app/pages/product-list/product-list.ts:330-333 | the new column and direction are kept; the current filtered list is sorted by them and paged again |
| ProductList.ProductListPage.ClearFilters | src/app/pages/product-list/product-list.ts:335-344 | the panel goes back to no brand, stock or rating filter and the price range in force, and is applied |
| ProductList.ProductListPage.ChangePage | src/app/pages/product-list/product-list.ts:346-351 | a page from 1 to the page count becomes the current page; any other number changes nothing |
| ProductList.ProductListPage.GetPaginationArray | src/app/pages/product-list/product-list.ts:353-362 | the consecutive page numbers from two before to two after the current page, cut to 1 through the page count: ascending, at most five, all existing pages |
| ProductList.ProductListPage.ShowLoaded | src/app/pages/product-list/product-list.ts:197-200 | the given products are loaded; the brand list and price range are recomputed from them; the filters are reset and applied; page 1 is shown |
| ProductList.ProductListPage.AppendChunk | src/app/pages/product-list/product-list.ts:139-153 | with chunks 0 to k-1 loaded, chunk k is cached and appended, the brand list and price range are recomputed, and the list is shown under the panel's choices as they are then, whatever the shopper picked since the last chunk; with the panel untouched that is the reset view |
| ProductList.ProductListPage.LoadNextChunk | src/app/pages/product-list/product-list.ts:137-156 | from chunk chunkIndex on, every remaining chunk is appended in turn, so all chunks end up loaded and cached, and the list is shown under the panel's choices as they are when it runs; with the panel untouched the reset view is kept |
| ProductList.ProductListPage.LoadRemainingChunks | src/app/pages/product-list/product-list.ts:133-159 | with the first chunk shown, the rest follow, so all the products end up loaded, cached by chunk and shown |
| ProductList.ProductListPage.ProcessProductsInChunks | src/app/pages/product-list/product-list.ts:115-131 | the first fifty products are shown at once with the filters reset, then the remaining chunks follow; at the end all products are loaded, cached chunk by chunk and shown, and loading is over |
| ProductList.ProductListPage.LoadCategoryProducts | src/app/pages/product-list/product-list.ts:76-113 | the route's category and its formatted name are kept and the cache is cleared; a fetched category is loaded chunk by chunk and shown under the reset filters; a failed fetch leaves no products; loading ends either way |
| ProductList.ProductListPage.LoadProductsByIds | src/app/pages/product-list/product-list.ts:167-206 | the ids are fetched three at a time; when no request fails, the products received, in id order and without the nulls, are loaded and shown under the reset filters; a failed request leaves no products; loading ends either way |
| ProductList.ProductListPage.SelectProducts | src/app/pages/product-list/product-list.ts:80-86 | a non-empty id list is titled 'Selected Products' and loaded by id; an empty one changes nothing |
| Home.ChunkArray | src/app/pages/home/home.ts:89-96 | the slides concatenate back to the products, each slide holds one to four products and every slide but the last holds exactly four |
| Home.FetchCarousels | src/app/pages/home/home.ts:61-74 | the forkJoin fails exactly when one category's product request fails; otherwise there is one carousel per category, in order, with its name, slug, fetched products and slides of four |
| Home.HomePage.constructor | src/app/pages/home/home.ts:26-29 | no carousels, categories or products, and loading |
| Home.HomePage.LoadCategorizedProducts | src/app/pages/home/home.ts:52-86 | the carousels become those of the first ten categories when every request succeeds, none for no categories, and stay as they were on any failure; loading ends either way; nothing else changes |
| Home.HomePage.LoadCategories | src/app/pages/home/home.ts:99-108 | the category grid shows the fetched categories, and keeps the old ones on failure; nothing else changes |
| Home.HomePage.LoadAllProducts | src/app/pages/home/home.ts:111-120 | the featured sections show the fetched products, and keep the old ones on failure; nothing else changes |
| Home.HomePage.NavigateToCategory | src/app/pages/home/home.ts:125-127 | the route '/category/' followed by the slug opens; nothing else changes |
| Home.FirstMatchingType | src/app/pages/home/home.ts:217-240 | the class of a rule from position i on that the slug matches, and none exactly when no rule from there matches |
| Home.CategoryType | src/app/pages/home/home.ts:217-240 | always one of fashion, electronics, beauty, home, sports, watches and shoes |
| Home.FashionRule | src/app/pages/home/home.ts:218 | the fashion rule matches exactly the slugs containing 'men', 'women', 'fashion', 'shirt' or 'dress' |
| Home.ElectronicsRule | src/app/pages/home/home.ts:221 | the electronics rule matches exactly the slugs containing 'phone', 'laptop', 'tablet' or 'electronic' |
| Home.BeautyRule | src/app/pages/home/home.ts:224 | the beauty rule matches exactly the slugs containing 'beauty', 'skin' or 'fragrance' |
| Home.HomeRule | src/app/pages/home/home.ts:227 | the home rule matches exactly the slugs containing 'home', 'furniture' or 'kitchen' |
| Home.SportsRule | src/app/pages/home/home.ts:230 | the sports rule matches exactly the slugs containing 'sport', 'vehicle' or 'motorcycle' |
| Home.CategoryTypeByRules | src/app/pages/home/home.ts:217-240 | getCategoryType is the class of the first rule, in table order, that the slug matches, and 'electronics' when none does |
| Home.FashionFirst | src/app/pages/home/home.ts:218-237 | every slug containing 'women' contains 'men', and any slug containing 'men' is fashion, so the men's and women's watches and shoes never reach the watches or shoes rule |
| Home.UrlText | src/app/pages/home/home.ts:133-180 | an icon's URL is the colour or fluency 64-pixel prefix, the icon's name and '.png' |
| Home.UrlTextInjective | src/app/pages/home/home.ts:262-273 | different icons have different URLs, so comparing an image's source with a URL identifies the icon |
| Home.CategoryDrawing | src/app/pages/home/home.ts:193-214 | the slug's own drawing when it has one, else the drawing of its type; never the shopping bag, since every type has a drawing |
| Home.CategoryIcon | src/app/pages/home/home.ts:132-190 | the known icon URL exactly when the slug is in the icon table, otherwise the slug's drawing as an SVG data URL |
| Home.AlternativeSources | src/app/pages/home/home.ts:260-277 | at least one source, starting with the category's own icon; for any slug other than beauty and fragrances, just that icon |
| Home.AlternativesDistinct | src/app/pages/home/home.ts:260-277 | no source appears twice among a category's alternatives |
| Home.IndexOf | src/app/pages/home/home.ts:248 | the first position of the value, or -1 exactly when it is absent |
| Home.NextSource | src/app/pages/home/home.ts:243-257 | a source that is not an alternative moves to the first alternative, an alternative to the next one, and the last alternative to the drawing |
| Home.FailuresWalkAlternatives | src/app/pages/home/home.ts:243-277 | starting from the category's icon, after k failures the image shows alternative k, and after as many failures as there are alternatives it shows the drawing |
| Home.ImageElement.constructor | src/app/pages/home/home.ts:243-244 | the image starts from the given source |
| Home.HomePage.OnImageError | src/app/pages/home/home.ts:243-257 | the failing image's source becomes the next source after it |
| ManageProfileService.IndexOfEntry | src/app/services/manage-profile.service.ts:68 | the position of the first entry with the id, and -1 exactly when no entry has it |
| ManageProfileService.Upsert | src/app/services/manage-profile.service.ts:64-76 | an entry with an id replaces the first entry with that id, or changes nothing when there is none, keeping the length; an entry without an id is appended under the fresh id |
| ManageProfileService.WithoutId | src/app/services/manage-profile.service.ts:94 | the kept entries are exactly the entries with another id, never more than before |
| ManageProfileService.WithoutIdAppend | src/app/services/manage-profile.service.ts:94 | removing an id from two lists joined is removing it from each and joining, so the kept entries stay in order |
| ManageProfileService.WithoutAbsentId | src/app/services/manage-profile.service.ts:94 | removing an id no entry has changes nothing |
| ManageProfileService.AddThenRemove | src/app/services/manage-profile.service.ts:72-94 | adding a new entry under a fresh id and then removing that id gives back the list |
| ManageProfileService.UpsertFindsEntry | src/app/services/manage-profile.service.ts:66-71 | after an update the entry is found first under its id, at the place of the entry it replaced |
| ManageProfileService.IndexOfUserId | src/app/services/manage-profile.service.ts:27-33 | the first user with the user_id, what the query returns first, and -1 exactly when no user has it |
| ManageProfileService.IndexOfUser | src/app/services/manage-profile.service.ts:49 | the first user with the store id, and -1 exactly when no user has it |
| ManageProfileService.ReplaceUser | src/app/services/manage-profile.service.ts:49 | PUT replaces the first user with the record's store id and keeps the length; without one nothing changes |
| ManageProfileService.ReloadFindsWritten | src/app/services/manage-profile.service.ts:21-50 | writing back a changed copy of the first user with a user_id, under that user's store id, makes the changed copy what the next lookup by user_id returns |
| ManageProfileService.DeleteUser | src/app/services/manage-profile.service.ts:189 | DELETE removes the first user with the store id and keeps the rest in order; without one nothing changes |
| ManageProfileService.MergeAccount | src/app/services/manage-profile.service.ts:48 | the given account fields override and every other field, including the ids, the password, the addresses and the payment methods, is kept |
| ManageProfileService.MergeAccountLaws | src/app/services/manage-profile.service.ts:48 | merging no fields keeps the user; merging the same fields twice is merging them once |
| ManageProfileService.PasswordReset | src/app/services/manage-profile.service.ts:156-169 | the profile's error first, then 'Current password is incorrect' for a wrong current password, then 'New passwords do not match'; it succeeds exactly when both checks pass, with only the password hash changed to the new one's |
| ManageProfileService.ResetThenReset | src/app/services/manage-profile.service.ts:158-169 | after a reset the new password passes the current-password check, and the old one fails it unless the two hash alike |
| ManageProfileService.ProfileService.constructor | src/app/services/manage-profile.service.ts:14 | the service works on the given store and localStorage |
| ManageProfileService.ProfileService.CurrentUserId | src/app/services/manage-profile.service.ts:16-25 | a user id exactly when localStorage holds a non-empty one under 'userId', and then that one |
| ManageProfileService.ProfileService.Profile | src/app/services/manage-profile.service.ts:21-37 | 'User not logged in' without a stored id, the request error when the store is unreachable, 'User not found' when no user has that user_id, and otherwise the first user with it |
| ManageProfileService.ProfileService.PutChanged | src/app/services/manage-profile.service.ts:46-50 | the changed record is returned and replaces the user with its store id; when it keeps the user_id, reading the profile again gives the changed record; the other collections are untouched |
| ManageProfileService.ProfileService.UpdateAccountInfo | src/app/services/manage-profile.service.ts:40-53 | a failed profile read is returned and nothing changes; otherwise the merged user is returned and stored, and reading the profile again gives that user |
| ManageProfileService.ProfileService.UpdateAddress | src/app/services/manage-profile.service.ts:56-83 | a failed profile read is returned and nothing changes; otherwise the user with the address updated or appended under the current time is returned and stored, and reading the profile again gives that user |
| ManageProfileService.ProfileService.RemoveAddress | src/app/services/manage-profile.service.ts:86-100 | a failed profile read is returned and nothing changes; otherwise the user keeping every address with another id is returned and stored, and reading the profile again gives that user |
| ManageProfileService.ProfileService.UpdatePaymentMethod | src/app/services/manage-profile.service.ts:103-130 | a failed profile read is returned and nothing changes; otherwise the user with the payment method updated or appended under the current time is returned and stored, and reading the profile again gives that user |
| ManageProfileService.ProfileService.RemovePaymentMethod | src/app/services/manage-profile.service.ts:133-147 | a failed profile read is returned and nothing changes; otherwise the user keeping every payment method with another id is returned and stored, and reading the profile again gives that user |
| ManageProfileService.ProfileService.ResetPassword | src/app/services/manage-profile.service.ts:150-178 | a failed read or check is returned with its message and nothing changes; otherwise 'Password updated successfully' and the user stored with the new password's hash |
| ManageProfileService.ProfileService.DeleteAccount | src/app/services/manage-profile.service.ts:181-200 | a failed read or DELETE is returned and changes neither the users nor the session; otherwise the user's record is deleted and only then do isLoggedIn and userId leave localStorage |
| ManageProfile.NewAddressFor | src/app/pages/manage-profile/manage-profile.ts:121-131 | a new address has no id, the user's name and phone, and every other field empty |
| ManageProfile.AccountFormOf | src/app/pages/manage-profile/manage-profile.ts:83-89 | the account form holds every field of the user: name, email, phone, date of birth and gender |
| ManageProfile.UnchangedFormKeepsUser | src/app/pages/manage-profile/manage-profile.ts:83-96 | saving the account form as it was opened gives back the same user |
| ManageProfile.MaskedCardNumber | src/app/pages/manage-profile/manage-profile.ts:305-308 | '****' for fewer than four characters; otherwise nineteen characters, the first fifteen stars and spaces and the last four those of the card number |
| ManageProfile.YearRange | src/app/pages/manage-profile/manage-profile.ts:314-321 | the 21 years from the current one on, in increasing order |
| ManageProfile.ManageProfilePage.constructor | src/app/pages/manage-profile/manage-profile.ts:17-53 | the account section, nothing loading, edited or selected, both dialogs closed, empty password fields, no toast and no navigation |
| ManageProfile.ManageProfilePage.LoadUserProfile | src/app/pages/manage-profile/manage-profile.ts:66-78 | the profile read becomes the page's user; on an error the user is kept and the error is shown; loading ends |
| ManageProfile.ManageProfilePage.OnInit | src/app/pages/manage-profile/manage-profile.ts:55-64 | the profile is loaded, or on a failed read the user is kept and the error toast shown; a non-empty URL fragment selects its section, or 'account' when unknown, cancelling every edit and closing both dialogs; without one the section, edits and dialogs are kept |
| ManageProfile.ManageProfilePage.StartEditingAccount | src/app/pages/manage-profile/manage-profile.ts:81-90 | the account form opens filled from the user |
| ManageProfile.ManageProfilePage.SaveAccountInfo | src/app/pages/manage-profile/manage-profile.ts:92-107 | once the service succeeds the edited fields are merged into the page's user, the form closes and is cleared, and success is shown; on an error the user, the form and the store stay and the error is shown |
| ManageProfile.ManageProfilePage.CancelEditingAccount | src/app/pages/manage-profile/manage-profile.ts:109-112 | the account form closes and is cleared |
| ManageProfile.ManageProfilePage.StartEditingAddress | src/app/pages/manage-profile/manage-profile.ts:115-133 | the address form opens with a copy of the given address, or with a new address for the user |
| ManageProfile.ManageProfilePage.SaveAddress | src/app/pages/manage-profile/manage-profile.ts:135-151 | on success the store holds the user with the edited address updated or appended, the page's user is reloaded as that record, the form closes and is cleared, and success is shown; on an error the store, the page's user and the form stay and the error is shown |
| ManageProfile.ManageProfilePage.CancelEditingAddress | src/app/pages/manage-profile/manage-profile.ts:153-157 | the address form closes and is cleared, with no address selected |
| ManageProfile.ManageProfilePage.RemoveAddress | src/app/pages/manage-profile/manage-profile.ts:159-174 | without confirmation nothing changes; confirmed, the store holds the user without that address, the page's user is reloaded as that record and success is shown, or the error is shown and the store and the page's user stay |
| ManageProfile.ManageProfilePage.StartEditingPayment | src/app/pages/manage-profile/manage-profile.ts:177-193 | the payment form opens with a copy of the given method, or with a new card with every field empty |
| ManageProfile.ManageProfilePage.SavePaymentMethod | src/app/pages/manage-profile/manage-profile.ts:195-211 | on success the store holds the user with the edited payment method updated or appended, the page's user is reloaded as that record, the form closes and is cleared, and success is shown; on an error the store, the page's user and the form stay and the error is shown |
| ManageProfile.ManageProfilePage.CancelEditingPayment | src/app/pages/manage-profile/manage-profile.ts:213-217 | the payment form closes and is cleared, with no method selected |
| ManageProfile.ManageProfilePage.RemovePaymentMethod | src/app/pages/manage-profile/manage-profile.ts:219-234 | without confirmation nothing changes; confirmed, the store holds the user without that payment method, the page's user is reloaded as that record and success is shown, or the error is shown and the store and the page's user stay |
| ManageProfile.ManageProfilePage.OpenResetPasswordModal | src/app/pages/manage-profile/manage-profile.ts:237-244 | the reset dialog opens with empty fields |
| ManageProfile.ManageProfilePage.ResetPassword | src/app/pages/manage-profile/manage-profile.ts:246-269 | a new password differing from its confirmation is refused on the page before any request; otherwise the service's reset decides: success stores the new hash, closes and clears the dialog; failure keeps the store and the dialog and shows the error |
| ManageProfile.ManageProfilePage.CloseResetPasswordModal | src/app/pages/manage-profile/manage-profile.ts:271-278 | the reset dialog closes and its fields are cleared |
| ManageProfile.ManageProfilePage.OpenDeleteAccountModal | src/app/pages/manage-profile/manage-profile.ts:281-283 | the delete dialog opens |
| ManageProfile.ManageProfilePage.DeleteAccount | src/app/pages/manage-profile/manage-profile.ts:285-298 | on success the session keys are gone, success is shown and the home page opens; otherwise the session, the users and the route stay and an error is shown |
| ManageProfile.ManageProfilePage.CloseDeleteAccountModal | src/app/pages/manage-profile/manage-profile.ts:300-302 | the delete dialog closes |
| ManageProfile.ManageProfilePage.SetActiveSection | src/app/pages/manage-profile/manage-profile.ts:324-340 | a known section is shown and anything else shows 'account'; every edit is cancelled and cleared and both dialogs close |

## Left out

- HTTP, RxJS and Promise plumbing: each request's outcome is an argument, and parallel fan-out (forkJoin, Promise.all, the parallel restock) runs in sequence, because the model is sequential.
- Timers and scheduling: the hourly cleanup timer, the simulated payment delay, the navigation timeouts and the 100 ms delay between product chunks. One sweep or one step is modelled at a time, because a clock is outside the model.
- ProductList.ProductListPage.LoadRemainingChunks: describes a run of the chunks in which the shopper leaves the filter panel alone. In the source the shopper can change the panel during each 100 ms delay. ProductList.ProductListPage.AppendChunk, one step, accepts any panel and shows the list under it.
- Lost updates between concurrent read-modify-write calls on stock and orders, because the source has no concurrency control to state anything about.
- Floating point: money is an exact real, and `toFixed` and currency formatting are left out, because the model has no floating-point strings.
- Dates are integer milliseconds. `new Date` parsing and locale formatting are left out.
- AdminOrders.ArchivedByAdmin: the expiry is now plus 30 days of 24 hours. The source's setDate adds 30 calendar days in the browser's local time zone, an hour more or less when a daylight-saving change falls inside them. AdminOrders.ArchivedStaysListed states its 30 days in the same 24-hour days. Time zones are not modelled.
- Sorting.LexLe: compares strings by code point. JavaScript's `<`, `>` and the default `.sort()` compare UTF-16 code units, which order a character above U+FFFF (a surrogate pair) before one in U+E000 to U+FFFF, where the model orders it after. This affects the brand order of ProductList.SortedBrands, the title sort of ProductList.ProductListPage.ApplySorting and the text sort keys of Paging.KeyLe, by which the admin order and customer tables sort. Strings are sequences of Unicode scalar values in the model.
- CheckoutPayment.DeliveryDay: adds five days of 24 hours and takes the UTC date, as toISOString does. The source's setDate adds five calendar days in the browser's local time zone, which is an hour more or less when a daylight-saving change falls inside them, so the UTC date can differ near midnight. Time zones are not modelled.
- Model.EndOfDay: the `dateTo` bound is the last millisecond of the day in UTC. The source's setHours(23, 59, 59, 999) ends the day in the browser's local time zone, so a record stamped between local and UTC midnight can be kept or dropped differently. Time zones are not modelled.
- AdminOrders.AdminOrdersPage.ApplyFilters: its `dateTo` filter ends the day in UTC, through Model.EndOfDay, not in local time.
- AdminCustomers.AdminCustomersPage.ApplyFilters: its registration `dateTo` filter ends the day in UTC, through Model.EndOfDay, not in local time.
- Common.Lower, Common.UpperChar and Common.Trim fold case and trim white space on ASCII only. JavaScript's toLowerCase, toUpperCase and trim follow Unicode: 'É' lowers to 'é', 'ß' uppers to "SS", and U+00A0 and U+2028 count as white space. The model has no Unicode tables. Every member built on them compares on ASCII folding: AdminOrders.CustomerMatch, AdminOrders.OrderSortKey, AdminCustomers.PassesFilters, AdminCustomers.CustomerSortKey, AdminCustomers.GenderBadgeClass, OrderHistory.OwnedBy, OrderHistory.IsCod and CheckoutPayment.IsValidUpi. The laws AdminCustomers.FiltersIgnoreCase and CheckoutPayment.UpiIgnoresCase hold for that folding.
- ProductList.FormatCategoryName: upper-cases ASCII letters only. Its equal-length promise fails in the source for a letter that toUpperCase turns into two, such as the 'ß' of "ßport".
- OrderHistory.StatusText: upper-cases the first letter on ASCII only, so its equal-length promise fails in the source for a status starting with such a letter.
- ProductList.ProductListPage.ApplySorting: the source's comparator never answers 0. For two equal prices, ratings or titles it answers -1 whichever way round they are given. It is therefore not consistent, and JavaScript leaves the order of equal products to the engine, which may reverse them. The model keeps equal products in their input order.
- AdminOrders.AdminOrdersPage.SortOrders: a missing customerInfo, name, email or order number sorts first in the model. In the source, reading the name or email of an order without customerInfo throws. Lower-casing a missing value against a present one throws. A comparison with undefined is false both ways, so the comparator is not consistent there.
- AdminCustomers.AdminCustomersPage.SortCustomers: a missing phone, date of birth or gender sorts first in the model. In the source, undefined compares false both ways against a text, so the order around such customers depends on which of the two the engine compares first.
- MD5, `Math.random` and `Date.now` are arguments, because they are foreign or nondeterministic.
- Angular form validators and regex patterns: a form's validity is a `bool` argument, because the validators are library behaviour.
- Routing, toasts, alerts and confirm dialogs, CSS badge classes, icon URLs as text and SVG markup. A navigation is a recorded route and a toast a recorded message. An icon URL is a set plus an icon name, and an SVG is the name of its drawing, because the model does not build strings.
- Lookups in object literals (the status index, role names, icon and drawing tables) ignore inherited keys such as 'constructor', which JavaScript would find on the prototype.
- UserAuth.UserAuthService.Register: the retries after a user_id collision are bounded by the random draws given. When every given draw collides the answer is None, because the source's recursion has no bound of its own.
- UserAuth.UserAuthService.Register: the name and email go into the lookup query unencoded. The store's query decoding is not part of this model: a '+' read as a space, '&' or '#' ending the value, percent escapes. The duplicate checks therefore compare the values exactly. A taken name or email holding such characters can pass the source's checks, so UserAuth.RegistrationFresh holds for exact comparison only.
- getCurrentUserEmail, which the notification box calls, is not part of this model. The shopper's email is an argument of CustomerNotifications.CustomerNotificationsBox.OnInit.
- AdminOrders.RemovalNotice, OrderHistory.RefundNotice and OrderHistory.CancelNotice: the notification's message text is not built, so Model.Notification has no message field. The removal and refund messages embed a formatted currency amount, which is left out with the rest of currency formatting, and the removal message's 'unforeseen circumstances' default for an empty reason goes with it.
- The notification service's internals (its queries and writes) are not part of this model. Each notification call is one outcome argument.
- AdminAuth.AdminAuthService.constructor: a stored value that parses as JSON but is not an admin is treated like an unparseable one, because stored values are typed in the model.
- AdminSettings.AdminSettingsPage.OnChangePassword: requires a current admin. Without one the source throws when it reads the stored password, and exceptions are not modelled.
- AdminSettings.AdminSettingsPage.OnUpdateProfile: requires a current admin, for the same reason.
- onPhotoSelected of the admin settings page is left out, because it reads a file with FileReader, which is browser I/O.
- ManageProfileService.ProfileService.PutChanged: the PUT that follows a successful read is taken to succeed. One reachability flag stands for both requests.
- ManageProfileService.ProfileService.UpdateAddress: the source also writes the fresh id into the caller's address object (aliasing), which the model does not capture.
- ManageProfileService.ProfileService.UpdatePaymentMethod: the same aliasing of the caller's payment object is not captured.
- The order history page's start-up checks are left out, because they talk to a debugging service that is not part of this model. These are the login redirect and the database connection probe; loading is modelled from the point where they pass.
- The checkout payment page's start-up redirects (no address, empty cart) are left out, because they are navigation only.
- Thin wrappers with no logic of their own (the product service, the wishlist service and page, data persistence, the auth guard, the login, signup and admin login pages) are not part of this model.
- OrderHistory.CancelledMessage: the refund notice omits the formatted refund amount, because money formatting is not modelled
- ShoppingCart.CalculateCartTotals: the total price is not rounded to two decimals, because money is modelled as an exact real
- ProductDetail.ProductDetailPage.LoadProduct: the wishlist status check that follows a load (checkWishlistStatus) is left out, because the wishlist service is not part of this model
- ProductList: isBrandSelected and getMin (product-list.ts:326-328, 382-384) are one-line template helpers, membership in the panel's brands and Math.min, and have no member of their own

## Findings

| source | as written | input that shows it | evidently intended | confidence | as-written member | corrected member |
|---|---|---|---|---|---|---|
| src/app/pages/order-tracking/order-tracking.ts:90-102 | step i of [confirmed, processing, shipped, delivered] is marked done when i <= the status index, where pending is 0 and delivered 4, so the marks run one step ahead of the order | orderStatus 'shipped' (index 3) marks step 3, 'Delivered', done; 'confirmed' marks 'Processing' done; 'pending' marks 'Order Confirmed' done | a step is done exactly when the order has reached that step's own status | high (not executed) | OrderTracking.ShownStepsRunAhead | OrderTracking.ReachedStepsDelivered |

The page method OrderTracking.OrderTrackingPage.UpdateTrackingSteps keeps the marking as written, because that is what the page displays. The corrected marking is OrderTracking.ReachedSteps. It is proved to mark 'Delivered' only for a delivered order.
