# Restaurant ordering app: order and authorization rules

This project models the rules of a restaurant ordering application. The
application is an Express server over a relational store, plus a React
client.

**Server side**
- The order table's handlers:
  - placing an order;
  - the admin status update;
  - the customer cancel;
  - the delete;
  - the 30-second sweep that marks overdue `preparing` orders `ready`.
- The paging arithmetic of the list routes.
- Seeding the category table from the menu.
- The admin create-user route.
- The bearer-token and admin-only middlewares.
- Register and login over the user table.
- The permission cache (cache keys, a 60-second expiry per entry, clearing, and the `checkPermission` decision).
- The default permission table and the loop that seeds the store from it.

**Client side**
- The cart list: add, remove, clear.
- The cart's grouping, total and submit guard.
- The `groupItems` fold shared by the admin and customer order tables.
- The order-table controls: Cancel, Delete and countdown in the customer's order list, Delete in the admin table, and the sort toggle and page buttons of both.
- The countdown timer.
- The kitchen and delivery boards.
- The support dashboard.
- The confirmation dialog.
- The promote toggle and the self-delete guard.
- The route guard and the post-login landing page.

**How it is modelled**
- Stateful parts are classes whose methods change their fields:
  - the order table, user table and category table;
  - the permission store and permission cache;
  - the cart, the countdown, the confirmation dialog, the delivery board and the login page.
- Each method is specified by a pure function of the old state. Lemmas about those functions state what the application promises.
- The store throwing is a boolean parameter.
- JWT signing and verification, bcrypt hashing and comparison, and the clock are functions or values passed in.
- Timers are explicit. The permission cache keeps its pending deletions and fires the due ones on `Tick(now)`. The sweep is one call of `Sweep(now, failing)`.
- E-mails are notices appended to an outbox.
- Money is integer cents.

`JsRuntime` holds the JavaScript built-ins the rules depend on:
- `split` with empty fields;
- `parseInt` (whitespace, sign, `0x`, leading digits);
- ASCII `toLowerCase`;
- the order-preserving de-duplication of `[...new Set(xs)]`.

The order-list route and the status-update route are both admin-only (server/src/index.ts:44, 95). The kitchen and delivery boards send every status change to the status-update route, so each one is refused with 403 (`StaffBoards.StaffUpdatesRefused`). The support dashboard loads its orders from the admin-only list route, so it is turned away with 403 (`DashboardActions.SupportNeedsAdminRoutes`). Its Cancel button goes to the customer cancel route, which is not admin-only. That route succeeds for a pending order the support account placed itself and refuses every other order (`DashboardActions.SupportCancelOutcome`, `DashboardActions.ShownButRefused`).

## Model

| member | source | states |
|---|---|---|
| Entities.ParseRole | server/src/routes/auth.ts:31 | A role string is accepted by the store only as one of the five enumeration names, and the role read back prints as that string |
| Entities.ParseRoleName | server/src/routes/auth.ts:31 | Every role's name is read back as that role (round trip) |
| Entities.RoleNameHasNoColon | server/src/middleware/permissions.ts:26 | No role name contains `:`, the separator of cache keys |
| JsRuntime.Split | server/src/middleware/auth.ts:16 | `split(' ')` yields at least one field and no field contains the separator |
| JsRuntime.SplitThenJoin | server/src/middleware/auth.ts:16 | Joining the fields of a split with the separator gives the string back |
| JsRuntime.JoinThenSplit | server/src/middleware/auth.ts:16 | Splitting a join of separator-free fields gives the fields back |
| JsRuntime.ToLower | server/src/index.ts:687 | Lower-casing keeps the length and maps each character independently of the others |
| JsRuntime.LowerCaseFixed | server/src/index.ts:686-687 | A string with no upper-case letter is its own lower case, so the three deletable statuses match themselves |
| JsRuntime.ParseDecimal | server/src/index.ts:638 | `parseInt` of the decimal rendering of a natural number gives that number back |
| JsRuntime.UniqueInOrder | server/src/index.ts:148 | `[...new Set(xs)]` holds exactly the values of `xs` |
| JsRuntime.UniqueInOrderSpec | server/src/index.ts:148 | The de-duplicated values are distinct and ordered by their first occurrence in `xs` |
| AuthMiddleware.BearerToken | server/src/middleware/auth.ts:15-16 | A token is read only from a present header with a second space-separated field that is non-empty and holds no space |
| AuthMiddleware.BearerRoundTrip | server/src/middleware/auth.ts:15-16 | The header `Bearer <token>` the client builds yields exactly that token |
| AuthMiddleware.NoTokenWithoutSecondField | server/src/middleware/auth.ts:16-18 | A header with no space, or with two spaces after the scheme, carries no token |
| AuthMiddleware.Authenticate | server/src/middleware/auth.ts:14-25 | `next` runs iff a token is present and verifies, with `req.user` the decoded payload; no token gives 401, a failed verification 403 |
| AuthMiddleware.RequireAdmin | server/src/middleware/auth.ts:27-33 | `next` runs iff a user is present whose role is exactly `ADMIN`; otherwise 403 "Access denied. Admins only." |
| AuthMiddleware.AdminChain | server/src/index.ts:95 | The two gates in a row pass exactly an authenticated caller whose role is `ADMIN` |
| Accounts.Payload | server/src/routes/auth.ts:35-39 | The token payload carries the user's id, email, role name and name |
| Accounts.Public | server/src/routes/auth.ts:44-53 | The user object returned carries id, name, email, role and phone, and has no password field |
| Accounts.OrDefault | server/src/routes/auth.ts:30 | `x \|\| d` is `d` exactly when `x` is absent or empty |
| Accounts.RequestedRole | server/src/routes/auth.ts:31 | A missing role becomes `CUSTOMER`; a given role is kept when the store accepts it |
| Accounts.RegisterReply | server/src/routes/auth.ts:11-59 | Missing email or password gives 400; an existing email gives 400 "User already exists"; a store error or a role outside the enumeration gives 500 "Registration failed"; registration succeeds iff email and password are present, the store is up, the email is new and the requested role is valid, and the success is 201 with the next id, the given email and name, the requested role and phone `phoneNo \|\| ''`, signed |
| Accounts.LoginReply | server/src/routes/auth.ts:62-99 | Login succeeds iff the store is up, the email exists and the password matches, returning the user's payload, public user and signed token; an unknown email and a wrong password both give 401 "Invalid credentials"; a store error gives 500 "Login failed" |
| Accounts.UnknownEmailLooksLikeWrongPassword | server/src/routes/auth.ts:67-74 | An unknown email and a wrong password produce identical replies |
| Accounts.CreateUserReply | server/src/index.ts:321-351 | Non-admins get 403; missing email or password gives 400; a store error or a role outside the enumeration gives 500 "Failed to create user"; an email already in the table gives 400 "Email already exists", and only such an email does; 201 iff the role is valid, the store is up and the email is new |
| Accounts.UserTable.Register | server/src/routes/auth.ts:11-59 | Replies as `RegisterReply`; a failure leaves the table unchanged; a success adds exactly the new row under its email |
| Accounts.UserTable.Login | server/src/routes/auth.ts:62-99 | Replies as `LoginReply` and reads the table only |
| Accounts.UserTable.CreateUser | server/src/index.ts:321-351 | Replies as `CreateUserReply`; a non-201 leaves the table unchanged; a 201 adds the row with the requested role and no phone |
| Accounts.RegisterThenLogin | server/src/routes/auth.ts:25-39 | An account just registered logs in with its password and receives the same payload, user object and token |
| Pagination.QueryInt | server/src/index.ts:45-46 | `parseInt(q) \|\| d` is the parsed value unless it is NaN or 0, which give the default |
| Pagination.PageWindow | server/src/index.ts:45-49 | Page and limit are never 0 and the skip is `(page - 1) * limit` |
| Pagination.TotalPagesIsCeiling | server/src/index.ts:86 | With a positive limit, `Math.ceil(total / limit)` is the least page count whose pages hold all rows; it is 0 iff there are no rows |
| Pagination.RowOnItsPage | server/src/index.ts:86 | Every row index lies on page `k / limit + 1`, within the page count, between that page's skip and the next |
| Pagination.DefaultWindow | server/src/index.ts:45-49 | Absent, zero and unparsable parameters give page 1 of 10 rows, skip 0 |
| CategorySeed.CategoryOf | server/src/index.ts:148 | `category \|\| 'General'` is never empty and keeps a non-empty category |
| CategorySeed.Categories | server/src/index.ts:148 | The mapped list has one category per item, in item order |
| CategorySeed.CategoryNamesSpec | server/src/index.ts:148 | The seeded names are distinct, are exactly the items' categories, and include "General" iff some item has no category (or says "General") |
| CategorySeed.CategoryTable.SeedFromMenu | server/src/index.ts:144-158 | A non-empty table is left alone; an empty one receives the distinct categories in order of first appearance |
| Orders.Owner | server/src/index.ts:508-523 | A new order has an owner only when the header's token verifies, and then it is that token's `userId`; with no header it is a guest order |
| Orders.SignedInOwner | server/src/index.ts:508-517 | A client sending `Bearer <token>` for a valid token owns the order it places |
| Orders.StatusUpdated | server/src/index.ts:104-115 | A given status is written whatever the current one is, and an absent one keeps the old status; items, customer, total and owner are kept; the ready time becomes `now + minutes * 60000` only for `preparing` with a non-zero time, and stays as it was otherwise |
| Orders.UpdateStatusReply | server/src/index.ts:95-132 | 200 iff the caller is an admin, the store is up and the id names an existing order; non-admins get 403, any other failure 500 |
| Orders.CancelReply | server/src/index.ts:631-663 | 200 iff the caller has an id, the order exists, it is the caller's and it is `pending`; otherwise 403 "Forbidden" without a user id, 500 for a store error or an unparsable id, 404 for a missing order, 403 for someone else's, and 400 exactly for the caller's own order that is not `pending` |
| Orders.DeleteReply | server/src/index.ts:666-700 | 200 iff the caller has a user id, the order exists, the caller is ADMIN or its owner, and its lower-cased status is deletable; otherwise 403 "Forbidden" without a user id, 500 for a store error or an unparsable id, 404 for a missing order, 403 for a non-admin who does not own it (before the status is looked at), and 400 exactly when a permitted caller meets a status outside pending, cancelled and delivered |
| Orders.GuestOrdersNeedAdmin | server/src/index.ts:680-683 | A delete of an order with no owner succeeds only for an ADMIN |
| Orders.DueIds | server/src/index.ts:706-713 | The sweep's query returns exactly the `preparing` orders whose ready time is at or before `now` |
| Orders.Promoted | server/src/index.ts:715-719 | Promotion sets status `ready` on exactly the given orders and changes no other order |
| Orders.ReadyNotices | server/src/index.ts:723-730 | One `ready` status e-mail per promoted order, in promotion order |
| Orders.SweepIdempotent | server/src/index.ts:703-735 | After a full sweep nothing is due at the same `now`, so a second sweep changes nothing |
| Orders.SweepOnlyPromotesDue | server/src/index.ts:706-719 | Every order the sweep changes was `preparing` and becomes `ready`, and only its status changes |
| Orders.OrderTable.PlaceOrder | server/src/index.ts:499-551 | Falsy items, customer or total give 400 and create nothing; a store error gives 500; otherwise a fresh id holds a `pending` order with the token's owner, and a confirmation and an admin alert are sent |
| Orders.OrderTable.UpdateStatus | server/src/index.ts:95-132 | Replies as `UpdateStatusReply`; on success exactly that order becomes `StatusUpdated` and one status e-mail with its new status is sent; otherwise nothing changes |
| Orders.OrderTable.Cancel | server/src/index.ts:631-663 | Replies as `CancelReply`; on success only that order's status changes, to `cancelled`; otherwise nothing changes |
| Orders.OrderTable.Delete | server/src/index.ts:666-700 | Replies as `DeleteReply`; on success exactly that order is removed; otherwise nothing changes |
| Orders.OrderTable.Sweep | server/src/index.ts:703-735 | Only due orders are promoted, each once, with one `ready` e-mail each; the tick completes iff no due order's update fails, and then every due order is promoted; a failure stops the tick and leaves the rest untouched |
| Orders.OwnerCanCancelPlacedOrder | server/src/index.ts:641-656 | A pending order of a signed-in customer can be cancelled by that customer through its decimal id |
| Orders.CancelledOrderDeletable | server/src/index.ts:652-689 | An order its owner has just cancelled can then be deleted by that owner |
| Permissions.Lookup | server/src/middleware/permissions.ts:44 | A lookup allows only through a row that says so; a missing row denies |
| Permissions.CacheKeyInjective | server/src/middleware/permissions.ts:26 | Distinct (role, resource, action) triples with colon-free resources never share a cache key |
| Permissions.CacheHitIgnoresStore | server/src/middleware/permissions.ts:29-31 | A cached answer is returned whatever the store holds or whether it is reachable |
| Permissions.ClearedCacheReadsStore | server/src/middleware/permissions.ts:82-84 | With the cache cleared the answer is exactly the store's |
| Permissions.Pending | server/src/middleware/permissions.ts:48 | The timers still waiting are exactly those not yet due |
| Permissions.TimerStep | server/src/middleware/permissions.ts:48 | A due timer adds its key to the fired keys; a waiting one joins the pending list |
| Permissions.PermissionCache.HasPermission | server/src/middleware/permissions.ts:21-55 | Answers from the cache on a hit and from the store on a miss (fail-closed); a miss with the store up caches the answer, true or false, and schedules its deletion 60000 ms later; a hit or a store error changes nothing |
| Permissions.PermissionCache.Expire | server/src/middleware/permissions.ts:48 | A firing timer deletes its key whatever the entry holds now |
| Permissions.PermissionCache.Tick | server/src/middleware/permissions.ts:48 | Every due timer's key is deleted and the rest stay scheduled in order |
| Permissions.PermissionCache.Clear | server/src/middleware/permissions.ts:82-84 | Every entry is removed |
| Permissions.PermissionCache.CheckPermission | server/src/middleware/permissions.ts:60-77 | No user gives 401 with no lookup; for a signed-in user `next` runs iff the permission resolves to allowed, and otherwise the answer is 403 "You don't have permission to <action> <resource>"; the cache changes exactly as in `HasPermission` |
| Permissions.FirstOfTwoFires | server/src/middleware/permissions.ts:48 | At the first timer's due time only that timer fires |
| Permissions.EarlyExpiryScenario | server/src/middleware/permissions.ts:47-48 | An entry cached again after a clear is deleted by the earlier insertion's timer, before its own 60 s have passed |
| PermissionSeed.NamesInjective | server/src/seedPermissions.ts:5-45 | Distinct resources, and distinct actions, are written as distinct strings |
| PermissionSeed.UpsertedLookup | server/src/seedPermissions.ts:50-64 | After the upserts a key of the table holds its last listed flag; any other key keeps its old row or stays absent |
| PermissionSeed.UpsertIdempotent | server/src/seedPermissions.ts:51-63 | Seeding twice leaves the store as seeding once |
| PermissionSeed.LastAllowedDistinct | server/src/seedPermissions.ts:50-64 | With distinct keys, a row's key ends with that row's own flag |
| PermissionSeed.SeedPermissions | server/src/seedPermissions.ts:47-67 | The store after seeding is the old store with every default row upserted in table order |
| PermissionSeed.UpsertRows | server/src/seedPermissions.ts:50-64 | The loop upserts each row in turn |
| PermissionSeed.DefaultsAllAllowed | server/src/seedPermissions.ts:5-45 | Every default entry is `allowed: true` |
| PermissionSeed.DefaultKeysDistinct | server/src/seedPermissions.ts:7-44 | No (role, resource, action) appears twice in the table |
| PermissionSeed.AscendingKeysDistinct | server/src/seedPermissions.ts:7-44 | A table listed in strictly ascending order repeats no key |
| PermissionSeed.RoleBlocks | server/src/seedPermissions.ts:7-44 | Counting from 0, ADMIN's rows are rows 0–17, DELIVERY_STAFF's rows 21–22 and CUSTOMER's the last three, rows 27–29 |
| PermissionSeed.AdminRowsListed | server/src/seedPermissions.ts:7-24 | Every ADMIN row is CRUD on orders, menu, users or categories, or view/update on permissions |
| PermissionSeed.AdminGrantsPresent | server/src/seedPermissions.ts:7-24 | Every one of those 18 grants has its ADMIN row |
| PermissionSeed.SeededRowsHold | server/src/seedPermissions.ts:50-64 | After seeding every default key is in the store and allows |
| PermissionSeed.NoRowDenies | server/src/seedPermissions.ts:42-44 | A key with no row in the table is denied by a store seeded from empty |
| PermissionSeed.CustomerCannotChangeOrders | server/src/seedPermissions.ts:42-44 | A seeded store denies CUSTOMER `orders/update` and `orders/delete` |
| PermissionSeed.DeliveryCannotSeeMenu | server/src/seedPermissions.ts:32-33 | A seeded store denies DELIVERY_STAFF every action on `menu` |
| Cart.Spliced | client/src/App.tsx:68-72 | `splice(i, 1)` on a copy removes exactly element i when i is in range and keeps the others in order; past the end it removes nothing |
| Cart.NegativeSplice | client/src/App.tsx:70 | A negative index counts from the end, and below minus the length removes the first item |
| Cart.AddThenRemoveLast | client/src/App.tsx:63-72 | Adding an item and removing the last position gives the cart back |
| Cart.CartState.AddToCart | client/src/App.tsx:63-66 | The item goes last, the count grows by one and the cart opens |
| Cart.CartState.RemoveFromCart | client/src/App.tsx:68-72 | The list becomes its splice at the index; an in-range index lowers the count by one |
| Cart.CartState.ClearCart | client/src/App.tsx:74-76 | The cart becomes empty |
| Cart.MinusIndex | client/src/components/Cart.tsx:91 | `findIndex` finds the first item with that id |
| Cart.MinusButton | client/src/components/Cart.tsx:91 | The minus button lowers that id's count by one and leaves every other id's count as it was |
| Cart.GroupMapKeys | client/src/components/Cart.tsx:31-37 | The grouping record has a key for exactly the ids in the cart |
| Cart.GroupMapEntry | client/src/components/Cart.tsx:31-37 | Each entry copies the first item with its id and counts that id's occurrences |
| Cart.AscendingKeys | client/src/components/Cart.tsx:39 | `Object.values` visits integer keys in ascending order, each once |
| Cart.GroupCart | client/src/components/Cart.tsx:31-39 | The in-place reduce followed by `Object.values` computes the grouped lines |
| Cart.GroupedSpec | client/src/components/Cart.tsx:31-39 | One line per distinct id, in ascending id order, each the first item of its id, with quantity the number of its occurrences |
| Cart.GroupedTotals | client/src/components/Cart.tsx:31-40 | The quantities add up to the cart's length; with one price per id, Σ price × quantity equals the cart total |
| Cart.Submit | client/src/components/Cart.tsx:42-53 | An empty cart sends nothing; otherwise the payload carries the cart total, the customer details and the grouped cart lines as order lines, one per line in the same order |
| Cart.SubmittedLines | client/src/components/Cart.tsx:31-51 | The order lines sent hold one line per distinct id of the cart, in ascending id order, each with that id's number of occurrences as its quantity |
| Cart.SubmittedCartAccepted | client/src/components/Cart.tsx:44-53 | A submitted cart is refused by the server as incomplete iff its total is zero |
| OrderGrouping.OrOne | client/src/components/MyOrders.tsx:58-60 | `q \|\| 1` is never 0 and keeps a non-zero quantity |
| OrderGrouping.Find | client/src/components/MyOrders.tsx:56 | `acc.find` hits the first entry with that id, or reports that none exists |
| OrderGrouping.GroupItems | client/src/components/AdminDashboard.tsx:207-217 | The accumulator loop computes the grouped list |
| OrderGrouping.SumQuantitySign | client/src/components/MyOrders.tsx:58 | An id not in the list sums to 0; present with no negative quantity it sums to at least 1 |
| OrderGrouping.GroupedIds | client/src/components/AdminDashboard.tsx:207-216 | One entry per distinct id, in order of first occurrence |
| OrderGrouping.GroupedFields | client/src/components/MyOrders.tsx:54-64 | Each entry keeps the other fields of the first line with its id |
| OrderGrouping.GroupedQuantities | client/src/components/AdminDashboard.tsx:211-213 | With no negative quantity, each entry's quantity is the sum of its lines' quantities, a missing or zero quantity counted as 1 |
| OrderGrouping.ItemsSummary | client/src/components/MyOrders.tsx:185 | With at most one entry the items cell is the first name (or nothing) and a space; with more it starts with the first name followed by ` +` |
| OrderGrouping.SummaryCount | client/src/components/MyOrders.tsx:185 | The `n` in `+n more` reads back as the number of entries not named |
| OrderViews.DeleteShownIffServerDeletes | client/src/components/MyOrders.tsx:208 | For a caller allowed to delete the order, the Delete button is shown iff the server's delete succeeds |
| OrderViews.CancelShownIffServerCancels | client/src/components/MyOrders.tsx:205 | For the owner, the Cancel button is shown iff the server's cancel succeeds |
| OrderViews.CancelShownThenDeleteShown | client/src/components/MyOrders.tsx:205-208 | Wherever Cancel is shown, Delete is too |
| OrderViews.CountdownAfterPreparing | client/src/components/MyOrders.tsx:194 | An order moved to `preparing` with a non-zero time shows a countdown to `now` plus that many minutes |
| OrderViews.NoCountdownAfterSweep | client/src/components/MyOrders.tsx:194 | An order the sweep has promoted shows no countdown |
| OrderViews.HandleSort | client/src/components/AdminDashboard.tsx:393-400 | The clicked column is selected; the same column flips the direction, a new one sorts ascending |
| OrderViews.SortTwice | client/src/components/MyOrders.tsx:142-149 | Clicking the same header twice restores the sort; a new header clicked twice sorts descending |
| OrderViews.PageRange | client/src/components/AdminDashboard.tsx:173-176 | The page list is 1..n in order |
| OrderViews.PageButtons | client/src/components/AdminDashboard.tsx:170-176 | Nothing is rendered for at most one page; otherwise the counting loop yields pages 1..totalPages |
| OrderViews.EveryRowHasAButton | client/src/components/AdminDashboard.tsx:170-176 | Whenever the page buttons are shown, every row has a button for the page it lies on |
| Countdown.MinutesAndSeconds | client/src/components/CountdownTimer.tsx:18-19 | Whole minutes and leftover seconds recompose the whole seconds |
| Countdown.CalculateTimeLeft | client/src/components/CountdownTimer.tsx:9-24 | Nothing is left once the target has passed; otherwise minutes are ⌊d/60000⌋, uncapped, and seconds lie in 0..59, together making ⌊d/1000⌋ seconds; the result is zero iff less than a second is left |
| Countdown.TimeLeftMonotone | client/src/components/CountdownTimer.tsx:9-24 | A later reading never shows more time left |
| Countdown.CountdownTimer.Tick | client/src/components/CountdownTimer.tsx:28-37 | Each tick shows the new time left; the interval stops iff less than a second remains, and then the end is reported exactly once |
| StaffBoards.StatusRequest | client/src/components/KitchenDashboard.tsx:54-84 | `preparing` is sent only with a time that parses as an integer, and then with that time; any other status is sent at once without a time |
| StaffBoards.RequestReachesRow | client/src/components/KitchenDashboard.tsx:54-77 | A sent request writes its status; the ready time is set iff the entered time is a non-zero integer |
| StaffBoards.EnteredMinutesSent | client/src/components/KitchenDashboard.tsx:61-67 | Any whole number of minutes typed into the preparation-time prompt is sent as that number with `preparing` |
| StaffBoards.StaffUpdatesRefused | server/src/index.ts:95 | Any status request from a non-admin account is refused with 403 |
| StaffBoards.WithStatus | client/src/components/KitchenDashboard.tsx:86-87 | A column is no longer than the board |
| StaffBoards.WithStatusMembers | client/src/components/KitchenDashboard.tsx:86-87 | A column holds exactly the board's cards with its status |
| StaffBoards.WithStatusConcat | client/src/components/DeliveryDashboard.tsx:60-61 | Filtering keeps the board's order |
| StaffBoards.ColumnsDisjoint | client/src/components/DeliveryDashboard.tsx:60-61 | Two columns of different statuses share no card and together hold no more than the board |
| StaffBoards.ActionsMoveCardsOn | client/src/components/KitchenDashboard.tsx:108-120 | Start Preparing, Mark Ready, Pick Up and Complete Delivery each move a card to the next column, and the last one off every board |
| StaffBoards.ButtonRequests | client/src/components/KitchenDashboard.tsx:54-73 | Only Start Preparing asks for a time; the other buttons send their status without one |
| StaffBoards.Without | client/src/components/DeliveryDashboard.tsx:52 | The optimistic removal is no longer than the board |
| StaffBoards.WithoutMembers | client/src/components/DeliveryDashboard.tsx:52 | The removal drops exactly the cards with that id |
| StaffBoards.WithoutConcat | client/src/components/DeliveryDashboard.tsx:52 | The removal keeps the other cards in order |
| StaffBoards.DeliveryBoard.PickUp | client/src/components/DeliveryDashboard.tsx:85 | Pick Up requests `out_for_delivery` and leaves the board as it is |
| StaffBoards.DeliveryBoard.CompleteDelivery | client/src/components/DeliveryDashboard.tsx:46-58 | A declined confirmation sends nothing; a confirmed one requests `delivered`, and once accepted drops exactly that order from the board |
| DashboardActions.NewRole | client/src/components/AdminDashboard.tsx:325 | Promote asks for `CUSTOMER` iff the user is `ADMIN`, and for `ADMIN` otherwise |
| DashboardActions.PromoteTwice | client/src/components/AdminDashboard.tsx:324-331 | Two presses restore exactly ADMIN and CUSTOMER and turn any staff role into CUSTOMER; every requested role is valid |
| DashboardActions.ConfirmDialog.Open | client/src/components/AdminDashboard.tsx:274-288 | Opening arms the callback and sends nothing |
| DashboardActions.ConfirmDialog.Confirm | client/src/components/ConfirmModal.tsx:50-55 | Confirm runs the armed callback once and then closes the dialog |
| DashboardActions.ConfirmDialog.Cancel | client/src/components/AdminDashboard.tsx:754 | Cancel closes without sending anything |
| DashboardActions.RequestUserDelete | client/src/components/AdminDashboard.tsx:255-272 | The admin's own id is refused with nothing changed; any other id arms the dialog; an admin's account stays spared |
| DashboardActions.ConfirmSpares | client/src/components/AdminDashboard.tsx:255-272 | Confirming keeps the admin's account spared |
| DashboardActions.SupportQuery | client/src/components/SupportDashboard.tsx:37 | The search term is sent iff it is non-empty |
| DashboardActions.SupportWindow | client/src/components/SupportDashboard.tsx:37 | The support list asks the server for the first 50 rows |
| DashboardActions.SupportNeedsAdminRoutes | server/src/index.ts:44 | A support account is turned away with 403 by the admin-only order routes |
| DashboardActions.SupportCancelOutcome | client/src/components/SupportDashboard.tsx:47-62 | The support Cancel succeeds iff the order is `pending` and was placed by the support account itself |
| DashboardActions.ShownButRefused | client/src/components/SupportDashboard.tsx:117 | Cancel is offered on a `preparing` order, but the server answers 400 for the support account's own order and 403 for anyone else's |
| Navigation.RoleHome | client/src/components/ProtectedRoute.tsx:18-23 | Each staff role is sent to its dashboard, and every other role to `/` |
| Navigation.Guard | client/src/components/ProtectedRoute.tsx:12-26 | No user goes to `/login`; the children render iff there is no role list or the role is in it; any other redirect goes to the role's home |
| Navigation.RedirectIgnoresAllowedRoles | client/src/components/ProtectedRoute.tsx:17-23 | The redirect target depends only on the role, never on the route's list, and is never `/login` |
| Navigation.NoRedirectLoop | client/src/components/ProtectedRoute.tsx:16 | A route admitting a role renders for it |
| Navigation.LoginDestination | client/src/components/Login.tsx:16-26 | The landing page is one of the four dashboards or `/` |
| Navigation.LoginMatchesGuard | client/src/components/Login.tsx:16-26 | For every role the login landing page is the guard's redirect target |
| Navigation.StaffLandOnUndeclaredPaths | client/src/App.tsx:84-93 | Kitchen, delivery and support accounts land on paths the router does not declare |
| Navigation.EveryLandingRouted | client/src/App.tsx:84-93 | With the staff dashboards routed, every landing page and guard redirect is a declared path |
| Navigation.ClientLogin | client/src/services/auth.ts:30-38 | A success yields the token and role; a failure yields the server's error text or "Login failed" |
| Navigation.LoginPage.HandleSubmit | client/src/components/Login.tsx:11-30 | A success saves the session and then navigates to the role's landing page; an error shows its message and goes nowhere. The landing page is a path the router declares exactly when the role has no staff dashboard, and it is always a path of the corrected router |
| Navigation.LoginOutcomes | client/src/components/Login.tsx:13-29 | A login with an unknown email or a wrong password shows "Invalid credentials"; a good one lands on the account role's page |

## Left out

- E-mail delivery (server/src/services/emailService.ts) is not part of this model. Each e-mail is a notice in the order table's outbox.
- JWT signing and verification and bcrypt hashing and comparison are functions passed in. Token expiry is therefore not modelled.
- The relational store is a map. A store error is a boolean `storeUp`; for the sweep it is the set `failing` of ids whose update throws.
- The order in which the store returns the sweep's rows is not modelled: `Sweep` promotes them in an order it picks.
- Prisma's `where`/`orderBy` construction for search and sort is left out. So are the list routes' row contents: only their paging arithmetic is modelled.
- Timers and concurrency are left out:
  - `setInterval` and `setTimeout` become explicit calls (`Sweep(now)`, `Tick(now)`, `CountdownTimer.Tick(now)`);
  - polling of the boards is left out;
  - races between requests are left out.
- Floating-point money is left out. Prices and totals are integer cents, and `toFixed` formatting is not modelled.
- `parseInt` is exact on unbounded integers. Precision loss above 2^53 is not modelled.
- Case mapping covers ASCII letters only.
- Orders.StatusUpdated: `setMinutes` is modelled as adding `minutes * 60000` ms. Daylight-saving shifts of the local clock are not modelled.
- Orders.UpdateStatusReply: the `typeof id !== 'string'` check (server/src/index.ts:99-101) never fires for a route parameter, so it is left out.
- Countdown.CalculateTimeLeft: works in whole milliseconds. Fractional milliseconds of a parsed date are not modelled.
- OrderGrouping.GroupedQuantities: assumes no line carries a negative quantity. Otherwise a running total of 0 is read as falsy by `(existing.quantity || 1)` and restarts at 1. Cart lines never carry a negative quantity.
- Cart.GroupedTotals: the line-total equality assumes items with the same id carry the same price.
- The JSON body's quantity and total are typed. Malformed JSON values (strings for numbers) are not modelled.
- The kitchen and delivery boards' own fetch routes (`/api/orders/kitchen`, `/api/orders/delivery`) have no handler in server/src/index.ts. The cards a board shows are therefore a parameter.
- The sorting itself is done by the server's `orderBy` and is not modelled; only the header toggle is.
- The admin dashboard's local relabelling of a promoted user and its local removal of deleted menu items, categories and users are not modelled. The requests they send are modelled as `DashboardActions.Action` values.
- Register's `name` is copied as given, including an absent name.
- The user object returned by register and login also carries `address`, `profilePicture` and `createdAt` (server/src/routes/auth.ts:50-52). The user table does not model these columns; they are not modelled because no rule here reads them.
- `ProtectedRoute` is modelled as a guard function, but no file of the client imports it, and client/src/App.tsx:84-93 wraps no route in it. As written, no route is guarded.
- `checkPermission` is modelled, but no order route mounts it; they use `requireAdmin`.
- The seed table's resources and actions are enumerations named by the exact strings the table uses. The permission store's keys are strings, as in the source.
- Permissions.EarlyExpiryScenario: fixes the times 0 and 20000 ms of the two insertions, for any role, resource and action the store has no row for.
- PermissionSeed.SeedPermissions: models only the seeding loop over a reachable store. An upsert that throws stops the loop and leaves the store partly seeded, and the script exits with code 1 (server/src/seedPermissions.ts:69-73). This path is not modelled.
- Accounts.LoginReply: `email` and `password` are typed as strings. A login body without an email makes the store lookup throw (server/src/routes/auth.ts:63-66). A body without a password, for a known email, makes the password comparison throw (server/src/routes/auth.ts:71). Either gives 500 "Login failed" (server/src/routes/auth.ts:95-97). The model reaches that reply only through `storeUp = false`.
- The preparation-time prompt's pre-filled value is not modelled; the entered text is a parameter. `InputModal` keeps the value of its first render (client/src/components/InputModal.tsx:25). The kitchen board's modal is always mounted, so its "15" default is never shown. The admin's "20" appears only after a reload of the dashboard has remounted the modal.
- Multer uploads, static files, the profile and review routes, and the presentation-only components are left out: layout, animation and toasts.

## Findings

| source | as written | input that shows it | evidently intended | confidence | as-written member | corrected member |
|---|---|---|---|---|---|---|
| client/src/App.tsx:84-93 | After login, kitchen, delivery and support accounts are sent to `/kitchen`, `/delivery` and `/support` (client/src/components/Login.tsx:18-23), but the router declares none of these paths, so their dashboards never render | log in with a KITCHEN_STAFF account | the three staff dashboards are routed at the paths the login page and the route guard send them to | medium, not executed | Navigation.StaffLandOnUndeclaredPaths | Navigation.EveryLandingRouted |
