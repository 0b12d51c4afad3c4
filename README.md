# bell-project ordering backend, modelled in Dafny

The bell-project is a restaurant ordering system. Customers pick dishes
from a restaurant's menu in a web app, pay through NaverPay or KakaoPay, and
follow their order until pickup. The owners run a second app that lists
the orders and moves them along. A set of serverless HTTP handlers sits behind
both apps and keeps orders, menus, print jobs and restaurants in DynamoDB
tables.

This project models the core of that backend, plus the pure state logic of
the two apps, and proves properties of the model.

- **Store** (`store.dfy`). The DynamoDB tables become classes that hold a `map` from
  key to row. Each offers atomic get, put and update. The order table adds
  `ConditionalUpdate`, the guarded single-row write that all order changes
  go through. A race between handlers is therefore an interleaving of
  atomic calls (`races.dfy`).
- **Order lifecycle**. `order.dfy` covers creating an order, with every line
  repriced from the confirmed menu, reading it back, and cancelling it
  under the refund cap. `payment.dfy` turns the two providers' webhooks into
  one callback record and applies it. `autocomplete.dfy` is the scheduled
  sweep that completes READY orders left waiting.
- **Print pipeline**. `escpos.dfy` is the ESC/POS formatter:
  a byte-chunk buffer with the printer's control codes. `tickets.dfy` lays out the
  customer receipt and the kitchen ticket as command lists and drives the
  formatter with them. `pos.dfy` covers the print endpoints and the
  three-attempt dispatcher.
- **Menu versioning** (`menu.dfy`): a new version is stored as a draft, and
  confirming it demotes every other confirmed version.
- **Validators and figures**:
  - `validation.dfy` and `clientutils.dfy`: the hand-written validators;
  - `stats.dfy`: the dashboard figures;
  - `category.dfy`: the category list;
  - `restaurant.dfy`: the admin check, restaurant creation, the update-expression
    builder and the owner login.
- **Client state**:
  - `cart.dfy`: the cart reducer;
  - `optionmodal.dfy`: the option dialog;
  - `menupage.dfy`: the menu page's derived lists and cart lines;
  - `ordermanagement.dfy` and `orderstatus.dfy`: the owner's and the
    customer's status rules;
  - `clientserver.dfy`: where the app and the backend meet.
- `types.dfy`, `clienttypes.dfy`, `text.dfy`, `seqs.dfy` and `wrappers.dfy`
  hold the records and the JavaScript built-ins the rest uses.

Representation choices:

- Money is an integer number of hundredths on the server, so rounding to two
  decimals is the identity there, and the 0.01 tolerance is one unit. The
  apps work in whole won.
- Instants are integer milliseconds.
- A refund is a `real`, because the source does not round it.
- Fresh ids, the clock, the payment providers' verification answer, the
  printer's replies, store faults and locale formatting are all parameters.
- An HTTP answer is a `Reply`: either a status with a value, or a
  problem with a status and a detail text.

## Model

| member | source | states |
|---|---|---|
| AutoComplete.CompleteAll | src/handlers/auto-complete.ts:67-82 | completing a set of orders changes rows of those orders only and never adds or removes a row |
| AutoComplete.NotificationFor | src/handlers/auto-complete.ts:100-124 | the notice carries "Your order #" + the upper-cased first 8 characters of the id + " is ready for pickup!", and an SMS or an e-mail exactly when the customer gave a non-empty phone or e-mail |
| AutoComplete.AutoCompleteOrder | src/handlers/auto-complete.ts:47-98 | an order updated after the cutoff or no longer READY is left alone; a store error is reported as an error; otherwise the guarded update completes the order (status COMPLETED, updatedAt and autoCompletedAt = now) and sends its notice exactly when the stored row is still READY, and a failed guard changes nothing and is not an error |
| AutoComplete.CompleteOne | src/handlers/auto-complete.ts:22-37 | one candidate's outcome counts as a success exactly when its update does not fail, a success carries that order's notice, and the table then holds exactly the completions so far |
| AutoComplete.CompleteEach | src/handlers/auto-complete.ts:22-37 | every candidate is tried once whatever the others do: successes + errors = candidates, errors = candidates whose update fails, exactly one notice for each completed order and no other notice, and the table equals the snapshot with exactly the non-failing candidates completed |
| AutoComplete.Sweep | src/handlers/auto-complete.ts:5-45 | a failed scan leaves the handler with the error and changes nothing; no candidates changes nothing; otherwise the counts, the final table and the notices are those of CompleteEach over the scanned candidates |
| AutoComplete.NoticesAlongSent | src/handlers/auto-complete.ts:84-86 | when the notices list each completed order once, the set of notices sent is exactly the set owed to the completed orders |
| AutoComplete.NoticesAlongAppend | src/handlers/auto-complete.ts:84-86 | recording the notice of one more completed order keeps one notice per order |
| AutoComplete.CandidatesPassRecheck | src/lib/dynamodb.ts:225-240 | every order the scan returns (READY, updatedAt strictly before now minus the configured minutes) passes the handler's own re-check at lines 51-64 of auto-complete.ts |
| Store.OrderTable.Get | src/lib/dynamodb.ts:36-52 | the row under the key, or none exactly when there is no such row |
| Store.OrderTable.Put | src/lib/dynamodb.ts:54-73 | the row is inserted or replaced under its own key and no other row changes |
| Store.OrderTable.ConditionalUpdate | src/lib/dynamodb.ts:75-97 | the update applies exactly when the row exists and its status passes the guard, and otherwise nothing changes |
| Store.MenuTable.GetLatestMenu | src/lib/dynamodb.ts:172-189 | none exactly when the restaurant has no confirmed menu version; otherwise a stored confirmed version created no earlier than any other |
| Store.MenuTable.Put | src/lib/dynamodb.ts:54-73 | the menu version is inserted or replaced under its key and no other row changes |
| Store.MenuTable.Update | src/lib/dynamodb.ts:75-97 | an existing row is updated and a missing one leaves the table as it was |
| Store.JobTable.Get | src/lib/dynamodb.ts:36-52 | the job under the key, or none exactly when there is none |
| Store.JobTable.Put | src/lib/dynamodb.ts:54-73 | the job is inserted or replaced and no other row changes |
| Store.JobTable.Update | src/lib/dynamodb.ts:75-97 | an existing job is updated and a missing one leaves the table as it was |
| Store.RestaurantTable.Get | src/handlers/restaurant.ts:86-89 | the restaurant row under the id, or none exactly when there is none |
| Store.RestaurantTable.Put | src/handlers/restaurant.ts:171-174 | the row is stored under the id and no other row changes |
| Store.RestaurantTable.Upsert | src/handlers/restaurant.ts:244-250 | an update applies to the existing row or, when the id is missing, to a new row holding only the key |
| Store.KeyRow | src/handlers/restaurant.ts:244-250 | the row an update creates for a missing id holds the key attribute alone and no categories |
| Restaurants.AuthHeader | src/handlers/restaurant.ts:36 | the `Authorization` header when it is non-empty, else the `authorization` header |
| Restaurants.RemoveFirst | src/handlers/restaurant.ts:40 | removing the first "Basic " leaves the string as it is or shortens it by exactly the pattern |
| Restaurants.RemoveFirstPrefix | src/handlers/restaurant.ts:40 | a header "Basic <token>" gives the token |
| Restaurants.RemoveFirstAbsent | src/handlers/restaurant.ts:40 | a header without "Basic " is decoded as it is |
| Restaurants.IsValidAdmin | src/handlers/restaurant.ts:35-44 | no header fails, and the check passes exactly when a header is present and its decoded credentials split at ':' into admin@bell.com and admin123 |
| Restaurants.AdminPairMeaning | src/handlers/restaurant.ts:41-43 | the decoded credentials pass exactly when they are "admin@bell.com:admin123" or begin with "admin@bell.com:admin123:" (later fields are ignored by the destructuring) |
| Restaurants.Lookup | src/handlers/restaurant.ts:339-341 | an attribute of the item is present exactly when the item has it, and then it is the stored value |
| Restaurants.WithoutPassword | src/handlers/restaurant.ts:100 | the answer holds every attribute of the row except ownerPassword, each with its stored value |
| Restaurants.GetRestaurant | src/handlers/restaurant.ts:75-115 | no id answers 400, an unknown id 404, and a known id 200 with exactly the stored row's attributes minus ownerPassword, and its categories |
| Restaurants.ActivationCode | src/handlers/restaurant.ts:31-33 | the activation code is 8 characters, each an upper-case hexadecimal digit |
| Restaurants.CreateRestaurant | src/handlers/restaurant.ts:117-192 | the checks answer in order 401, 400 for no body, 500 for bad JSON, 400 for a missing field and 409 for a taken id, each changing nothing; otherwise exactly the new active row is stored and answered with 201 without its password |
| Restaurants.CreatedRestaurant | src/handlers/restaurant.ts:159-177 | a created restaurant is active, keeps the given password in the table, carries an 8-digit upper-case hex code and hides the password in its answer |
| Restaurants.BuildUpdate | src/handlers/restaurant.ts:224-242 | the builder's loop yields one clause per kept entry in entry order followed by the updatedAt clause, and exactly the placeholders of the kept entries plus those of updatedAt |
| Restaurants.AttrNameInjective | src/handlers/restaurant.ts:231-232 | different entry positions get different placeholders |
| Restaurants.PlaceholdersMeaning | src/handlers/restaurant.ts:229-237 | an entry position has placeholders exactly when the entry is kept (not restaurantId, not undefined), and they name its key and its value |
| Restaurants.ClausesMeaning | src/handlers/restaurant.ts:229-237 | an entry position has a SET clause exactly when the entry is kept |
| Restaurants.UpdatedAtLast | src/handlers/restaurant.ts:239-242 | the updatedAt clause is never among the entries' clauses, so it appears once, last |
| Restaurants.AssignedMeaning | src/handlers/restaurant.ts:244-250 | after the SET, each kept entry's value is stored under its key and every attribute no kept entry names keeps its value |
| Restaurants.KeyUntouched | src/handlers/restaurant.ts:230 | the update never changes or adds the restaurantId attribute |
| Restaurants.UpdateRestaurant | src/handlers/restaurant.ts:194-265 | 401, 400 for no id, 400 for no body, 500 for bad JSON or a body that also sets updatedAt, each changing nothing; otherwise the row (created when missing) gets every kept entry in its attributes and updatedAt = now, and the answer is 200; an entry named categories is the exception listed under Left out |
| Restaurants.VerifyOwnerCredentials | src/handlers/restaurant.ts:306-376 | no body answers 400, bad JSON 500, and an accepted answer is 200 "Credentials verified" with exactly the stored row of the body's restaurant id minus ownerPassword |
| Restaurants.CredentialsOrder | src/handlers/restaurant.ts:318-366 | missing fields answer 400, an unknown restaurant 404, a wrong e-mail or password 401, an inactive restaurant 403, and the credentials are accepted exactly when both match and the status is active |
| Categories.StableSortSorted | src/handlers/category.ts:67-69 | the listed categories are ordered by ascending `order` and are exactly the stored ones (a permutation) |
| Categories.StableSortKeepsTies | src/handlers/category.ts:69 | categories with the same `order` keep their stored relative order (the sort is stable) |
| Categories.InsertSorted | src/handlers/category.ts:69 | inserting into an ordered list keeps it ordered |
| Categories.InsertPermutes | src/handlers/category.ts:69 | inserting adds exactly the one category |
| Categories.InsertTies | src/handlers/category.ts:69 | an inserted category goes after every category with the same `order` |
| Categories.InsertAt | src/handlers/category.ts:69 | one pass of the in-place insertion sort places `a[i]` into the already sorted prefix and leaves the rest of the array alone |
| Categories.SortByOrder | src/handlers/category.ts:69 | the array is sorted in place into the stable sort of its old contents |
| Categories.GetCategories | src/handlers/category.ts:47-81 | an unknown restaurant answers 404; otherwise 200 with its categories (none when the row has no list) stably sorted by `order` |
| Categories.NewCategory | src/handlers/category.ts:85-117 | a new category has id "cat_" + the uuid, is active, and has the requested `order` or else the number of existing categories |
| Categories.CreateCategory | src/handlers/category.ts:83-146 | an unknown restaurant answers 404 and changes nothing; otherwise the new category is appended to the list, updatedAt is set, and the answer is 201 with the category |
| Categories.AppendKeepsOthers | src/handlers/category.ts:120 | the new category is the last one and every existing category keeps its value and position |
| Categories.Patch | src/handlers/category.ts:213-228 | the edited category keeps its id, name, restaurant and creation time, takes each of displayName, active and order from the request when given and from the old category otherwise, and gets updatedAt = now |
| Categories.EmptyPatch | src/handlers/category.ts:213-228 | an empty request changes only updatedAt |
| Categories.UpdateCategory | src/handlers/category.ts:175-263 | an unknown restaurant or category answers 404 and changes nothing; otherwise the first category with the id is replaced by its edited copy, updatedAt is set, and the answer is 200 with it |
| Categories.UpdateTouchesOne | src/handlers/category.ts:201-237 | the edited category is the first one with the id, and every other category keeps its value and position |
| Categories.Handle | src/handlers/category.ts:265-338 | OPTIONS answers 200; a missing restaurant id 400; GET changes nothing and answers 404 or the stably sorted categories; POST and PUT check the category id and the body in the source's order and answer 400, or the generic 500 for unparsable JSON; a valid POST answers 404 or 201 with the new category appended to the stored row; a valid PUT answers one of the two 404s, or 200 with the first matching category patched in the stored row; any other method 405 with its name |
| ClientUtils.RemoveDashes | frontend/customer/src/utils/index.ts:51 | removing the dashes leaves no '-' in the number |
| ClientUtils.PatternWithoutDashes | frontend/customer/src/utils/index.ts:50 | on a string without dashes the pattern matches exactly 11 digits beginning with "01" |
| ClientUtils.PhoneMeaning | frontend/customer/src/utils/index.ts:49-52 | a phone number is valid exactly when, with every '-' removed, it is 11 digits beginning with "01" |
| ClientUtils.DashesIgnored | frontend/customer/src/utils/index.ts:51 | inserting a dash anywhere never changes the verdict |
| ClientUtils.EmailFromPieces | frontend/customer/src/utils/index.ts:55 | every address the regular expression matches (non-empty runs without whitespace or '@', an '@', a '.') passes validateEmail |
| ClientUtils.PiecesOfEmail | frontend/customer/src/utils/index.ts:55 | every address passing validateEmail splits into the three runs the expression matches |
| ClientUtils.EmailMeaning | frontend/customer/src/utils/index.ts:54-57 | validateEmail holds exactly when the address is `local@host.tld` with three non-empty runs free of whitespace and '@': one '@', no whitespace, a non-empty local part, a '.' inside the domain |
| ClientUtils.GetErrorMessage | frontend/customer/src/utils/index.ts:65-73 | an Error gives its message, a string itself, and anything else the fixed Korean fallback text |
| Cart.SetQuantity | frontend/customer/src/context/CartContext.tsx:70-77 | setting a quantity keeps the number of lines |
| Cart.Reduce | frontend/customer/src/context/CartContext.tsx:35-93 | only SET_RESTAURANT changes restaurantId, and only that; CLEAR_CART empties the lines and zeroes the total; an unknown action returns the state unchanged |
| Cart.ReduceKeepsTotal | frontend/customer/src/context/CartContext.tsx:59-85 | after every action the total is the sum of the lines' totalPrice |
| Cart.ReduceKeepsLinePrices | frontend/customer/src/context/CartContext.tsx:44-78 | if every line's totalPrice is price × quantity before an action (and in an added line), it still is after it |
| Cart.AddItemMeaning | frontend/customer/src/context/CartContext.tsx:37-57 | ADD_ITEM merges into the first line with the same item and options (quantity summed, totalPrice = new quantity × that line's price, every other line unchanged, no new line), and otherwise appends the line at the end |
| Cart.AddItemTotal | frontend/customer/src/context/CartContext.tsx:37-60 | adding a line raises the total by its quantity times the unit price of the line it lands in |
| Cart.RemoveItemMeaning | frontend/customer/src/context/CartContext.tsx:63-67 | REMOVE_ITEM leaves no line of that item, whatever its options; every line of another item stays as often as it occurred and no other line appears; nothing changes when the item is absent |
| Cart.UpdateQuantityMeaning | frontend/customer/src/context/CartContext.tsx:69-82 | UPDATE_QUANTITY gives every line of the item the new quantity and totalPrice = quantity × price, drops lines without a positive quantity, keeps every other line with a positive quantity; with a positive quantity every line of the item survives re-quantified; every line left is an old line, re-quantified when it is of the item |
| Cart.InitialAgrees | frontend/customer/src/context/CartContext.tsx:29-33 | the empty cart's total agrees with its lines |
| OptionModal.SelectChoice | frontend/customer/src/components/OptionSelectionModal.tsx:17-30 | an option already selected keeps the number of selections; otherwise the new selection is appended |
| OptionModal.SelectKeepsOnePerOption | frontend/customer/src/components/OptionSelectionModal.tsx:17-30 | choosing keeps at most one selection per option |
| OptionModal.SelectMeaning | frontend/customer/src/components/OptionSelectionModal.tsx:19-27 | after choosing, the option's selection is the chosen one, present in its old place or at the end, and every other selection is where it was |
| OptionModal.GetSelectedChoice | frontend/customer/src/components/OptionSelectionModal.tsx:32-35 | a reported choice is non-empty and recorded for the option; none means no selection with a non-empty choice id comes first for it |
| OptionModal.ChosenIsReported | frontend/customer/src/components/OptionSelectionModal.tsx:17-35 | once a choice with a non-empty id is chosen, it is the one reported for its option |
| OptionModal.CalculateTotalPrice | frontend/customer/src/components/OptionSelectionModal.tsx:37-40 | with nothing selected the total is the item's price times the quantity |
| OptionModal.TotalGrowsByModifier | frontend/customer/src/components/OptionSelectionModal.tsx:37-40 | each further selection adds its modifier once per unit to the total |
| OptionModal.ValidMeaning | frontend/customer/src/components/OptionSelectionModal.tsx:42-47 | the selection is valid exactly when every required option of the item has a selection |
| OptionModal.ValidFromSelections | frontend/customer/src/components/OptionSelectionModal.tsx:42-47 | a selection for every required option makes the selection valid |
| OptionModal.SelectionsFromValid | frontend/customer/src/components/OptionSelectionModal.tsx:42-47 | a valid selection has a selection for every required option |
| OptionModal.Decrement | frontend/customer/src/components/OptionSelectionModal.tsx:165 | the minus button never takes the quantity below 1 and lowers any larger quantity by one |
| OptionModal.Increment | frontend/customer/src/components/OptionSelectionModal.tsx:176 | the plus button raises the quantity |
| OptionModal.DecrementUndoesIncrement | frontend/customer/src/components/OptionSelectionModal.tsx:165-176 | from a quantity of at least 1, minus undoes plus |
| OptionModal.HandleConfirm | frontend/customer/src/components/OptionSelectionModal.tsx:53-60 | a valid selection is handed on with its quantity and the dialog is reset to no selections and quantity 1; an invalid one changes nothing and hands on nothing |
| OptionModal.StepKeepsInv | frontend/customer/src/components/OptionSelectionModal.tsx:17-60 | every user action keeps a quantity of at least 1 and one selection per option, and whatever is handed on is valid, one per option, with a quantity of at least 1 |
| MenuPage.CategoryNames | frontend/customer/src/pages/MenuPage.tsx:24 | one category name per item |
| MenuPage.DistinctMeaning | frontend/customer/src/pages/MenuPage.tsx:24 | the distinct categories are exactly the items' categories, each once |
| MenuPage.DistinctInFirstAppearanceOrder | frontend/customer/src/pages/MenuPage.tsx:24 | the distinct categories are listed in the order they first appear among the items (the insertion order of a Set) |
| MenuPage.Categories | frontend/customer/src/pages/MenuPage.tsx:24 | the tab list always begins with "all" |
| MenuPage.CategoriesMeaning | frontend/customer/src/pages/MenuPage.tsx:24 | every item's category has a tab, and every tab after "all" is some item's category |
| MenuPage.FilteredItems | frontend/customer/src/pages/MenuPage.tsx:25-27 | no items are shown while there is no menu |
| MenuPage.AllShowsEverything | frontend/customer/src/pages/MenuPage.tsx:25-27 | the "all" tab shows every item, in order |
| MenuPage.TabShowsItsCategory | frontend/customer/src/pages/MenuPage.tsx:25-27 | any other tab shows exactly the items of its category, and a listed tab shows at least one item |
| MenuPage.CategoryDisplayName | frontend/customer/src/pages/MenuPage.tsx:67-89 | the display name is empty only for an empty category |
| MenuPage.DisplayNameMeaning | frontend/customer/src/pages/MenuPage.tsx:67-89 | a category whose lower-cased name is in the table shows the table's name, and any other is shown unchanged |
| MenuPage.DisplayNameIgnoresCase | frontend/customer/src/pages/MenuPage.tsx:88 | names that differ only in ASCII case get the same table entry |
| MenuPage.HandleItemSelect | frontend/customer/src/pages/MenuPage.tsx:29-45 | an unavailable item is ignored, an item with options opens the dialog, and an item without options adds one unit with no options at totalPrice = price, which is the dialog's price at quantity 1 |
| MenuPage.HandleOptionConfirm | frontend/customer/src/pages/MenuPage.tsx:47-61 | nothing without a selected item; otherwise a line whose price is the unit price (base + modifiers) and whose totalPrice is the dialog's total, so totalPrice = price × quantity |
| MenuPage.ConfirmedLineAddsShownPrice | frontend/customer/src/pages/MenuPage.tsx:47-61 | a confirmed line that starts a new cart line raises the cart total by exactly the price the dialog showed, and keeps every line priced |
| OrderManagement.FilteredOrdersMeaning | frontend/owner/src/pages/OrderManagementPage.tsx:48-50 | "ALL" shows every order; any other filter shows exactly the orders with that status |
| OrderManagement.ActiveOrders | frontend/owner/src/pages/OrderManagementPage.tsx:52-54 | the active orders are exactly the PAID, COOKING and READY orders |
| OrderManagement.ActiveCount | frontend/owner/src/pages/OrderManagementPage.tsx:48-54 | there are as many active orders as the PAID, COOKING and READY tabs show together |
| OrderManagement.ForwardButtons | frontend/owner/src/pages/OrderManagementPage.tsx:78-80 | a forward button is shown exactly for active orders, at most one per order, and it asks for COOKING, READY or COMPLETED, never the current status |
| OrderManagement.ForwardPath | frontend/owner/src/pages/OrderManagementPage.tsx:335-361 | following the buttons from PAID passes COOKING and READY and ends at COMPLETED, which offers no button and cannot be cancelled |
| OrderManagement.ElapsedBounds | frontend/owner/src/pages/OrderManagementPage.tsx:67-76 | the label reports whole minutes rounded down below an hour, and whole hours rounded down from one hour on |
| OrderManagement.ElapsedTextInjective | frontend/owner/src/pages/OrderManagementPage.tsx:73-75 | two labels are equal exactly when they report the same elapsed time |
| OrderManagement.MinutesNotHours | frontend/owner/src/pages/OrderManagementPage.tsx:73-75 | a minutes label never equals an hours label |
| OrderStatusPage.GetStatusInfo | frontend/customer/src/pages/OrderStatusPage.tsx:34-45 | an unknown status gets a grey badge with its own name and '?' |
| OrderStatusPage.KnownStatusesHaveBadges | frontend/customer/src/pages/OrderStatusPage.tsx:34-45 | the seven known statuses are exactly those with a badge of their own |
| OrderStatusPage.StatusInfoDistinct | frontend/customer/src/pages/OrderStatusPage.tsx:34-45 | no two known statuses share a badge colour |
| OrderStatusPage.GetStatusProgress | frontend/customer/src/pages/OrderStatusPage.tsx:47-58 | the progress is between 0 and 5, and 0 for an unknown status |
| OrderStatusPage.ProgressAlongLifecycle | frontend/customer/src/pages/OrderStatusPage.tsx:47-58 | progress never decreases from CREATED to COMPLETED and rises at every step from PAYMENT_PENDING to COMPLETED; CANCELLED and CONFIRMED show 0 |
| OrderStatusPage.ForwardStepsOne | frontend/owner/src/pages/OrderManagementPage.tsx:335-361 | each forward button of the owner's page moves the customer's progress bar exactly one step |
| OrderStatusPage.CancelBeforeCooking | frontend/customer/src/pages/OrderStatusPage.tsx:60-62 | the customer may cancel exactly at progress 1 or 2, before cooking starts |
| OrderStatusPage.SameCancelRule | frontend/owner/src/pages/OrderManagementPage.tsx:81 | the customer and the owner may cancel in exactly the same statuses |
| ClientServer.UnitPriceAgainstLineTotal | src/handlers/order.ts:214-215 | a line sent with the unit price, as the menu page builds it (MenuPage.tsx:56), is refused as a price mismatch for any quantity of 2 or more and accepted for one unit |
| ClientServer.AppCancelsWithFullRefund | frontend/customer/src/pages/OrderStatusPage.tsx:60-62 | every status where the app offers cancelling is one the backend cancels, with a full refund |
| Escpos.EncodeChar | src/lib/pos-printer.ts:8 | a character is encoded in 1 to 4 UTF-8 bytes, a single byte equal to its code exactly for ASCII, and otherwise a lead byte followed by continuation bytes |
| Escpos.Utf8 | src/lib/pos-printer.ts:8 | the encoding has at least one byte per character |
| Escpos.Utf8Append | src/lib/pos-printer.ts:8 | encoding a concatenation concatenates the encodings |
| Escpos.Utf8Ascii | src/lib/pos-printer.ts:8 | ASCII text is sent as its character codes, one byte each |
| Escpos.FlattenAppend | src/lib/pos-printer.ts:67-69 | the buffer of two runs of chunks is the first run's buffer followed by the second's |
| Escpos.FlattenFront | src/lib/pos-printer.ts:67-69 | the buffer starts with the first chunk |
| Escpos.EscPosFormatter.Write | src/lib/pos-printer.ts:6-12 | text is appended as one chunk, its UTF-8 bytes, and the buffer grows by exactly those bytes |
| Escpos.EscPosFormatter.WriteCommand | src/lib/pos-printer.ts:14-16 | a command is appended as one chunk and the buffer grows by exactly its bytes |
| Escpos.EscPosFormatter.Initialize | src/lib/pos-printer.ts:18-20 | appends ESC @ (1B 40) |
| Escpos.EscPosFormatter.SetFontSize | src/lib/pos-printer.ts:22-28 | appends GS ! 11 for large and GS ! 00 for normal |
| Escpos.EscPosFormatter.SetBold | src/lib/pos-printer.ts:30-36 | appends ESC E 01 to switch bold on and ESC E 00 to switch it off |
| Escpos.EscPosFormatter.SetAlign | src/lib/pos-printer.ts:38-45 | appends ESC a 00, 01 or 02 for left, center and right |
| Escpos.EscPosFormatter.WriteLine | src/lib/pos-printer.ts:47-49 | appends one chunk, the text and a line feed, and the buffer grows by the text's bytes then 0A |
| Escpos.EscPosFormatter.WriteEmptyLine | src/lib/pos-printer.ts:51-53 | appends the single byte 0A |
| Escpos.EscPosFormatter.WriteSeparator | src/lib/pos-printer.ts:55-57 | appends one chunk, the character repeated width times and a line feed |
| Escpos.EscPosFormatter.CutPaper | src/lib/pos-printer.ts:59-61 | appends GS V B 00 (1D 56 42 00) |
| Escpos.EscPosFormatter.OpenCashDrawer | src/lib/pos-printer.ts:63-65 | appends ESC p 00 19 FA |
| Escpos.EscPosFormatter.Clear | src/lib/pos-printer.ts:71-73 | empties the chunk list and so the buffer |
| Escpos.RepeatChar | src/lib/pos-printer.ts:56 | a one-character string repeated n times is n copies of the character |
| Escpos.SeparatorBytes | src/lib/pos-printer.ts:55-57 | the default separator line is 32 bytes 2D followed by 0A |
| Tickets.Render | src/lib/pos-printer.ts:76-194 | a run of formatter calls appends one chunk per call |
| Tickets.RenderAppend | src/lib/pos-printer.ts:76-194 | the chunks of two runs of calls are the first run's followed by the second's |
| Tickets.Emit | src/lib/pos-printer.ts:18-65 | one formatter call appends exactly its chunk |
| Tickets.EmitAll | src/lib/pos-printer.ts:76-194 | a straight run of calls appends exactly their chunks, in order |
| Tickets.ModifierText | src/lib/pos-printer.ts:111 | a positive modifier is shown with a leading '+', any other as it is |
| Tickets.ReceiptOptionLines | src/lib/pos-printer.ts:110-115 | one receipt line per selected option |
| Tickets.ReceiptTitle | src/lib/pos-printer.ts:79-91 | the receipt's title block has 12 calls and starts with initialize |
| Tickets.TotalLines | src/lib/pos-printer.ts:123-127 | the block after the items ends with the line "TOTAL: " + the formatted total |
| Tickets.ReceiptFooter | src/lib/pos-printer.ts:123-144 | the receipt's last call is the paper cut |
| Tickets.EmitReceiptOptions | src/lib/pos-printer.ts:110-115 | the option loop appends one '  - name (modifier)' line per option, in order |
| Tickets.EmitReceiptItem | src/lib/pos-printer.ts:108-119 | one item appends its name ×qty line, its option lines, its line price and an empty line |
| Tickets.EmitReceiptHeader | src/lib/pos-printer.ts:79-104 | the receipt's opening appends the title, the phone line when a phone is known, and the items heading |
| Tickets.EmitReceiptFooter | src/lib/pos-printer.ts:123-144 | the receipt's end appends TOTAL, the payment lines when paid, and the closing lines with the cut |
| Tickets.EmitReceiptItems | src/lib/pos-printer.ts:106-121 | the item loop appends one block per item, in order, and its running total is the sum of the items' stored prices |
| Tickets.FormatOrderReceipt | src/lib/pos-printer.ts:76-147 | the receipt's bytes are the concatenated chunks of its layout: header, item blocks and footer with the recomputed total |
| Tickets.ReceiptFramed | src/lib/pos-printer.ts:79-144 | the receipt's bytes start with 1B 40 and end with 1D 56 42 00 |
| Tickets.ReceiptTotalFromItems | src/lib/pos-printer.ts:106-127 | the receipt does not depend on totalAmount, and its TOTAL line shows the sum of the items' prices |
| Tickets.ReceiptPhoneLine | src/lib/pos-printer.ts:93-95 | the phone line is inserted right after the title exactly when a non-empty phone is known, and is all the phone changes |
| Tickets.ReceiptPaymentLines | src/lib/pos-printer.ts:129-133 | the payment lines sit between TOTAL and the closing lines, and are all that the payment information changes on the receipt |
| Tickets.KitchenTitle | src/lib/pos-printer.ts:152-166 | the kitchen ticket's title block has 14 calls and starts with initialize |
| Tickets.KitchenOptionLines | src/lib/pos-printer.ts:175-179 | one '  * name' line per selected option |
| Tickets.EmitKitchenOptions | src/lib/pos-printer.ts:175-179 | the option loop appends one '  * name' line per option, in order |
| Tickets.EmitKitchenItem | src/lib/pos-printer.ts:169-180 | one item appends its name ×qty in large bold, its option lines and an empty line |
| Tickets.EmitKitchenFooter | src/lib/pos-printer.ts:183-191 | the end appends the customer lines when a phone is known, then two empty lines and the cut |
| Tickets.EmitKitchenItems | src/lib/pos-printer.ts:168-181 | the item loop appends one block per item, in order |
| Tickets.FormatKitchenTicket | src/lib/pos-printer.ts:149-194 | the kitchen ticket's bytes are the concatenated chunks of its layout |
| Tickets.KitchenFramed | src/lib/pos-printer.ts:152-191 | the kitchen ticket's bytes start with 1B 40 and end with 1D 56 42 00 |
| Tickets.KitchenCustomerLine | src/lib/pos-printer.ts:183-187 | the customer lines come right before the closing exactly when a non-empty phone is known, and are all the phone changes |
| Tickets.KitchenListsItems | src/lib/pos-printer.ts:168-171 | every item of the order has its name ×qty line on the kitchen ticket |
| Tickets.SendToPosPrinter | src/lib/pos-printer.ts:200-226 | with no endpoint nothing is raised; with one, the call succeeds exactly when the printer accepts, a refusal raises "POS printer request failed: status text", and a transport error is raised as it is |
| Pos.NewJob | src/handlers/pos.ts:152-163 | a new job is PENDING with no attempts, keyed by its id and the order's id, and expires 24 hours after it was created, in whole seconds |
| Pos.PosPrint | src/handlers/pos.ts:75-184 | a missing body, unparsable JSON, a missing order id, a missing restaurant id and an unknown order are refused with their 400/404 answers and nothing stored; otherwise exactly the new PENDING job is stored and 201 answers its id, status and creation time |
| Pos.GetPosPrint | src/handlers/pos.ts:186-245 | a missing job id or order id is a 400; the job is shown exactly when the (jobId, orderId) row exists, with its status, creation, completion time and error message; otherwise 404 |
| Pos.PosReprint | src/handlers/pos.ts:247-329 | after the same checks a reprint is a fresh print request for the same order: the same answers and the same single job stored |
| Pos.LastAttempt | src/handlers/pos.ts:332-399 | the dispatcher stops at the first attempt that throws nothing, and after the third at the latest |
| Pos.PrintTicket | src/handlers/pos.ts:351-359 | one send fails exactly as the printer call does for that ticket and attempt |
| Pos.SendTickets | src/handlers/pos.ts:348-359 | the receipt goes out first when the print type asks for it, the kitchen ticket next, stopping at the first failing send, whose error is what the attempt throws |
| Pos.RunAttempt | src/handlers/pos.ts:336-376 | an attempt first records its number and time, then sends, then marks the job SUCCESS; a throw at any step leaves the writes before it and no others |
| Pos.Attempt | src/handlers/pos.ts:336-398 | an attempt's try block and, on the last attempt, the FAILED write with the thrown message |
| Pos.Round | src/handlers/pos.ts:335-398 | one pass of the retry loop: the attempt, and after a failure that is not the last, the wait of 15 s or 30 s |
| Pos.ProcessPrintJob | src/handlers/pos.ts:331-400 | the job row ends as the attempts up to the stopping one leave it, the tickets sent are exactly those attempts' sends, and the waits are the retry delays between them |
| Pos.PrintAndDispatch | src/handlers/pos.ts:165-170 | an accepted print request whose dispatch runs to its end leaves its job SUCCESS or FAILED, never PENDING; a refused one stores and sends nothing |
| Pos.DispatchSettles | src/handlers/pos.ts:361-394 | a dispatched job ends SUCCESS exactly when some attempt threw nothing, and FAILED otherwise |
| Pos.FailedCarriesMessage | src/handlers/pos.ts:381-394 | a FAILED job went through all three attempts and carries the message of what the third threw, or "Unknown error" |
| Pos.SuccessRecordsAttempt | src/handlers/pos.ts:337-373 | a SUCCESS job records the number of the attempt that succeeded, its time and the completion time |
| Pos.AttemptsBounded | src/handlers/pos.ts:335-346 | the attempts counter only ever holds its start value or an attempt number reached so far |
| Pos.AttemptSendOrder | src/handlers/pos.ts:348-359 | within one attempt the receipt is sent before the kitchen ticket, each at most once, and only when the print type asks for it |
| Pos.SendsWithinAttempts | src/handlers/pos.ts:335-359 | every send of the dispatch belongs to one of the attempts made |
| Pos.RetryWaits | src/handlers/pos.ts:333-397 | the only waits are 15 s after a failed first attempt and 30 s after a failed second one; none after the last |
| MenuHandler.StoredItems | src/handlers/menu.ts:199-205 | the stored version keeps the posted items one for one, in order |
| MenuHandler.AllWellFormed | src/handlers/menu.ts:181-194 | the item check passes exactly when every posted item has an id, a name and a numeric price not below zero |
| MenuHandler.DraftMenu | src/handlers/menu.ts:196-205 | a new version is stored as a DRAFT, unconfirmed, under the restaurant and the fresh version id |
| MenuHandler.DemotedAmong | src/handlers/menu.ts:219-234 | demoting part of the versions keeps every key of the table |
| MenuHandler.Demoted | src/handlers/menu.ts:211-234 | after demoting, no version of the restaurant is confirmed, the table has the same keys, and other restaurants' versions are unchanged |
| MenuHandler.DemotedAmongStep | src/handlers/menu.ts:219-234 | each turn of the loop demotes exactly the version it visits, and only when that version is confirmed |
| MenuHandler.DemoteConfirmed | src/handlers/menu.ts:212-234 | the loop leaves the table with every confirmed version of the restaurant set back to DRAFT and nothing else changed |
| MenuHandler.PostMenu | src/handlers/menu.ts:121-264 | a missing body, unparsable JSON, a missing restaurant id, no items and a malformed item are refused with their 400 answers and the table unchanged; otherwise the new version is stored and answered with 201, as a DRAFT, or with confirm=true as the restaurant's confirmed version after every other has been demoted |
| MenuHandler.ConfirmLeavesOneConfirmed | src/handlers/menu.ts:210-251 | after a confirmed POST the new version is the restaurant's only confirmed one, and other restaurants' menus are untouched |
| MenuHandler.OnlyConfirmedIsLatest | src/handlers/menu.ts:87-90 | when one version is the only confirmed one, it is the one GET /menu answers |
| MenuHandler.DraftTouchesNothingElse | src/handlers/menu.ts:207-208 | a POST without confirm changes no stored version; every confirmed version stays confirmed |
| MenuHandler.GetMenu | src/handlers/menu.ts:69-118 | a missing restaurant id is a 400; the restaurant's latest confirmed version is answered with 200 exactly when it has one; otherwise 404 |
| OrderHandler.MatchOptionMeaning | src/handlers/order.ts:168-209 | an accepted selection names an option of the item and one of its choices and yields that choice's menu modifier, the declared one being within 0.01 of it; a refused one names a missing option, a missing choice or a modifier too far off |
| OrderHandler.OptionsRejectedPrefix | src/handlers/order.ts:168-209 | once a selection is refused the rest of the line's selections do not matter |
| OrderHandler.LinesRejectedPrefix | src/handlers/order.ts:137-234 | once a cart line is refused the rest of the order does not matter |
| OrderHandler.OptionsTotalStep | src/handlers/order.ts:168-209 | each turn of the selections loop adds the selection's menu modifier, or stops with its refusal |
| OrderHandler.MatchSelection | src/handlers/order.ts:169-209 | one turn of the selections loop: the option, then the choice, then the modifier comparison, with the refusal of the first that fails |
| OrderHandler.PriceSelections | src/handlers/order.ts:164-210 | the selections loop yields the base price plus the menu modifiers of all selections, or the refusal of the first selection refused |
| OrderHandler.PriceOrderItems | src/handlers/order.ts:135-234 | the pricing loop yields every line repriced, in order, with the total of their prices, or the refusal of the first line refused |
| OrderHandler.PriceOneLine | src/handlers/order.ts:138-232 | one line: the first menu item with its id must exist and be available, its selections must match and the client's price must lie within 0.01 of (base + menu modifiers) × quantity |
| OrderHandler.PriceLinesAccepted | src/handlers/order.ts:135-234 | an accepted order keeps one stored line per requested line, each priced on its own |
| OrderHandler.PriceLinesRejected | src/handlers/order.ts:137-234 | a refused order is refused with the error of its first refused line, all lines before it being acceptable |
| OrderHandler.OptionsTotalAccepted | src/handlers/order.ts:197-209 | accepted selections add up the menu's modifiers, not the client's |
| OrderHandler.ClientModifiersIgnored | src/handlers/order.ts:197-212 | two accepted selection lists naming the same options and choices cost the same, whatever modifiers the client declares |
| OrderHandler.PriceLineAccepted | src/handlers/order.ts:212-232 | an accepted line is stored with the recomputed (base + menu modifiers) × quantity, within 0.01 of the client's price, and the client's other fields |
| OrderHandler.PostOrder | src/handlers/order.ts:74-275 | a missing body, unparsable JSON, or no restaurant id or items is a 400; a restaurant with no confirmed menu is a 404; a refused line answers its own problem; a 400 only ever comes from the body and a 404 only from the missing menu; every refusal stores nothing; a well-formed request whose lines all price against the latest confirmed menu is always answered 201; a 201 stores exactly the new CREATED order, priced from the latest confirmed menu, and answers its id, total and payment URL |
| OrderHandler.ViewHidesPrivateFields | src/handlers/order.ts:323-333 | the order as shown does not depend on the menu snapshot, the customer details or the refund |
| OrderHandler.GetOrder | src/handlers/order.ts:277-339 | a missing order id or restaurant id is a 400; the order is shown with 200 exactly when its row exists; otherwise 404 |
| OrderHandler.RefundAmount | src/handlers/order.ts:400-406 | the refund is the whole total unless the order is COOKING or READY, when it is the cap percentage of the total; it never exceeds the total |
| OrderHandler.PlanCancel | src/handlers/order.ts:341-406 | a missing order id or restaurant id is a 400, an unknown order a 404, a COMPLETED order a 400; otherwise the cancel goes ahead with the refund of the order's status and its payment method, or 'original' |
| OrderHandler.CommitCancel | src/handlers/order.ts:408-443 | the guarded update marks the order CANCELLED with its refund, unless it has become COMPLETED, when nothing changes and the handler answers 500 |
| OrderHandler.DeleteOrder | src/handlers/order.ts:341-443 | a refused cancel changes nothing and answers its problem; an accepted one marks exactly that order CANCELLED with its refund and answers 200 with the refund and its method |
| PaymentCallback.NormalizeNaver | src/handlers/payment-callback.ts:65-124 | a missing body, unparsable JSON and a missing merchantPayKey are 400s; otherwise the callback is normalised with the provider NAVERPAY, SUCCESS exactly when admissionState is "SUCCESS", the payment id, amount and signature header |
| PaymentCallback.NormalizeKakao | src/handlers/payment-callback.ts:126-185 | a missing body, unparsable JSON and a missing partner_order_id are 400s; otherwise the callback is normalised with the provider KAKAOPAY, SUCCESS exactly when an approval time is present, the tid and the total amount |
| PaymentCallback.KakaoApprovalStamp | src/handlers/payment-callback.ts:170-181 | an approved KakaoPay callback is stamped with its approval time |
| PaymentCallback.ProcessPaymentCallback | src/handlers/payment-callback.ts:187-320 | a failing verification is a 500 and a rejected signature a 401, an unknown order a 404, all changing nothing; a SUCCESS callback marks a CREATED order PAID with its payment information and no expiry, and is a 409 leaving the row as it was when the order has moved on; a FAILED one records the failure on the order |
| PaymentCallback.CallbackStatusEffect | src/handlers/payment-callback.ts:233-290 | a failed payment never changes the order's status, a successful one always ends PAID with no expiry, and neither moves the row |
| Stats.Figures | src/handlers/stats.ts:92-131 | today's orders and the active orders are counts of the restaurant's orders, and the average order time is the fixed 25 minutes |
| Stats.GetDashboardStats | src/handlers/stats.ts:63-155 | a missing restaurant id is a 400; otherwise the answer is always 200: exactly `Figures` of the queried orders at the current instant (the partner lemmas below give their meaning), or the fixed mock figures when the query fails |
| Stats.RevenueOfPaying | src/handlers/stats.ts:103-109 | today's revenue is the sum of the totals of today's orders that are PAID, CONFIRMED, COOKING, READY or COMPLETED |
| Stats.UnpaidAddsNothing | src/handlers/stats.ts:103-109 | a CREATED or CANCELLED order never adds to the revenue |
| Stats.PendingWithinActive | src/handlers/stats.ts:112-120 | the pending (PAID) orders are never more than the active ones |
| Stats.RevenueBounds | src/handlers/stats.ts:103-109 | with amounts not below zero, the revenue lies between zero and the sum of all of today's totals |
| Validation.ValidateRestaurantId | src/lib/validation.ts:114-121 | only a non-empty string can be a valid restaurant id |
| Validation.RestaurantIdMeaning | src/lib/validation.ts:114-121 | a restaurant id is valid exactly when it is a string with a character that is not JavaScript whitespace |
| Validation.ValidateOrderId | src/lib/validation.ts:124-132 | a valid order id is a string of 36 characters |
| Validation.PiecesPositions | src/lib/validation.ts:130 | five groups of 8, 4, 4, 4 and 12 characters joined by '-' make 36 characters, with the dashes at positions 8, 13, 18 and 23 |
| Validation.Reassemble | src/lib/validation.ts:130 | a 36-character id with dashes at 8, 13, 18 and 23 is its five groups joined by '-' |
| Validation.PiecesOfUuid | src/lib/validation.ts:130 | an id passing the position check splits into the pattern's five groups |
| Validation.UuidOfPieces | src/lib/validation.ts:130 | an id made of the pattern's five groups passes the position check |
| Validation.OrderIdMeaning | src/lib/validation.ts:124-132 | an order id is valid exactly when it is a string matching the UUID pattern: hex groups of 8-4-4-4-12 in either case, version digit 1-5, variant digit 8, 9, a or b |
| Validation.ValidateRequired | src/lib/validation.ts:135-140 | a missing field yields "<field> is required" |
| Validation.RequiredMeaning | src/lib/validation.ts:135-140 | a field is missing exactly when it is null, undefined or the empty string; 0 and false are present |
| Validation.ValidatePrice | src/lib/validation.ts:143-162 | a non-number, a negative number and a non-finite number are refused with their messages, in that order |
| Validation.RoundHundredths | src/lib/validation.ts:157 | rounding to hundredths leaves a price unchanged exactly when it is a whole number of hundredths |
| Validation.PriceMeaning | src/lib/validation.ts:143-162 | a price passes exactly when it is a finite number, not negative, with at most two decimals; otherwise the decimals message is given for such a number with more |
| Validation.ValidateQuantity | src/lib/validation.ts:165-179 | anything but an integer number is refused as not an integer |
| Validation.QuantityMeaning | src/lib/validation.ts:165-179 | a quantity passes exactly when it is one of the integers 1 to 99; below 1 and above 99 get their own messages |
| Text.NatToString | src/lib/pos-printer.ts:219 | the decimal rendering of a number starts with a digit |
| Text.NatToStringDigits | src/lib/pos-printer.ts:219 | the rendering is all digits, with no leading zero |
| Text.NatToStringRoundTrip | src/lib/pos-printer.ts:219 | reading the rendering back gives the number |
| Text.IntToString | src/lib/pos-printer.ts:107 | a negative integer is rendered as '-' and the rendering of its magnitude |
| Text.IntToStringInjective | src/lib/pos-printer.ts:107 | different integers render differently |
| Text.MoneyToString | src/lib/pos-printer.ts:111 | a whole amount is rendered as its integer, with no decimals |
| Text.Upper | src/lib/pos-printer.ts:89 | upper-casing keeps the length |
| Text.Lower | frontend/customer/src/pages/MenuPage.tsx:88 | lower-casing keeps the length |
| Text.Prefix | src/lib/pos-printer.ts:89 | substring(0, n) is the string's first n characters, or all of a shorter one |
| Text.ShortId | src/handlers/auto-complete.ts:113 | the short order number has 8 characters, fewer only for a shorter id |
| Text.Repeat | src/lib/pos-printer.ts:56 | repeat(n) has n times the length |
| Text.Split | src/handlers/restaurant.ts:41 | a split always has at least one piece |
| Text.SplitPieces | src/handlers/restaurant.ts:41 | no piece of a split contains the separator |
| Text.SplitJoin | src/handlers/restaurant.ts:41 | joining the pieces with the separator gives the string back |
| Text.SplitNoSep | src/handlers/restaurant.ts:41 | a string without the separator splits into itself alone |
| Text.SplitAtFirst | src/handlers/restaurant.ts:41 | the first piece is everything before the first separator |
| Text.SplitShape | src/handlers/restaurant.ts:41 | a split in two or more pieces had a separator right after its first piece |
| Text.TrimStart | src/lib/validation.ts:120 | trimming the start drops exactly the leading whitespace |
| Text.TrimEnd | src/lib/validation.ts:120 | trimming the end drops exactly the trailing whitespace |
| Text.TrimNonEmpty | src/lib/validation.ts:120 | trim() leaves something exactly when the string has a character that is not whitespace |
| Text.ByteHex | src/handlers/restaurant.ts:32 | each byte is two hexadecimal digits |
| Text.BytesHex | src/handlers/restaurant.ts:32 | toString('hex') writes two lower-case hexadecimal digits per byte |
| Races.DuplicateSuccessCallback | src/handlers/payment-callback.ts:233-256 | the same verified SUCCESS callback delivered twice moves a CREATED order to PAID once, with the first delivery's data; the second delivery is a 409 that changes nothing |
| Races.CancelLosesToSweep | src/handlers/order.ts:410-429 | a cancel that read the order while READY and writes after the sweep completed it fails its guard: the order stays COMPLETED with no refund recorded and the cancel is answered 500 |
| Races.SweepThenCancel | src/handlers/order.ts:387-398 | a cancel that comes after the sweep completed the order is refused with 400 and writes nothing |
| Races.CancelTwice | src/handlers/order.ts:387-429 | an order already CANCELLED can be cancelled again: the second cancel succeeds and records a new full refund |

## Left out

- HTTP plumbing is not modelled: routing, CORS headers, the 404 for unknown routes and JSON.parse. Only their observable outcomes are: missing body, invalid JSON (the `Body` datatype), the outer catch's 500 (`Unexpected`), and the OPTIONS 200 of `Categories.Handle`; the other handlers' OPTIONS answers are not modelled.
- The AWS SDK is not modelled; src/lib/dynamodb.ts becomes the map-backed tables in `Store`.
  - `getLatestMenu` (src/lib/dynamodb.ts:172-189) queries the CONFIRMED index newest first with `Limit: 1` and only then filters by restaurant id, so it can miss a restaurant's menu when another restaurant's menu is newer. `Store.MenuTable.GetLatestMenu` answers by its intended result, the restaurant's newest confirmed menu.
  - Results are read from a single page: the sweep's scan (src/lib/dynamodb.ts:229-238, no Limit), the dashboard's order query (src/handlers/stats.ts:84-90) and the menu query of `PostMenu` never follow `LastEvaluatedKey`. The model hands them every matching row.
  - Updating a missing row writes nothing. DynamoDB would create a partial row, but no handler in the core updates a row it has not just read or written.
- Store calls never fail in the request handlers: a get, put, query or update that throws is not modelled there, nor the 500 ("Failed to …" or the generic error) each handler's catch answers. Only `Stats.GetDashboardStats`, `AutoComplete.Sweep`, `AutoComplete.AutoCompleteOrder` and `Pos.ProcessPrintJob` take store faults as parameters. The members without them:
  - OrderHandler.PostOrder, OrderHandler.GetOrder, OrderHandler.DeleteOrder: the catch at src/handlers/order.ts:58-70 and its 500 are not modelled.
  - MenuHandler.PostMenu: does not model a store error part way through. The put of the draft, the demotion of the old confirmed menus and the confirm of the new one are separate writes, so an error after a demotion leaves the restaurant with no confirmed menu, and later orders are refused with 404 until a menu is confirmed again.
  - MenuHandler.GetMenu: the 500 of a failed query is not modelled.
  - Categories.GetCategories, Categories.CreateCategory, Categories.UpdateCategory, Categories.Handle: the "Failed to …" 500s of src/handlers/category.ts are not modelled.
  - Restaurants.GetRestaurant, Restaurants.CreateRestaurant, Restaurants.UpdateRestaurant, Restaurants.VerifyOwnerCredentials: the 500s of a failed get, put or update are not modelled. The 500 that `UpdateRestaurant` answers when the body itself names updatedAt is modelled.
  - PaymentCallback.ProcessPaymentCallback: a failed scan or update answering 500 is not modelled.
- PaymentCallback.ProcessPaymentCallback: finds the order whenever some row has the callback's order id. The source scans with `Limit: 1` before filtering, so in a large table it can answer 404 for an order that exists.
- src/lib/payment.ts (provider HTTP calls, HMAC signatures) is not part of this model. Verification is the three-valued parameter `Verification`; its throwing case is the 500 answer.
- src/lib/auth.ts (JWT, JWKS, pbkdf2) is not part of this model.
- Asynchrony is modelled sequentially:
  - the fire-and-forget start of `processPrintJob` becomes `PrintAndDispatch`, which runs the dispatch to its end;
  - `Promise.allSettled` in the sweep becomes a loop with isolated outcomes;
  - `setTimeout` waits are only recorded as the delays chosen.
- Pos.PrintTicket: a send is recorded as its attempt and ticket kind, not as the bytes POSTed. The bytes are `Tickets.FormatOrderReceipt` / `Tickets.FormatKitchenTicket` of the order, whose layouts are proved on their own. Carrying them through the retry loop's contracts made those proofs too costly, and the bytes never decide an attempt's outcome.
- Pos.ProcessPrintJob: assumes the FAILED write of the third attempt succeeds. If it threw, the job would stay with its attempts recorded and its status unchanged, and the error would only be logged.
- The `fetch` in `sendToPOSPrinter` is the printer's reply, a parameter. Console output when no endpoint is configured is not modelled.
- Floating point is not modelled; money is exact hundredths, as described above.
  - The `Math.round(x × 100) / 100` of line totals and order totals is therefore the identity.
  - `validatePrice` is modelled on exact reals with NaN and the infinities, not on IEEE doubles.
- Locale formatting (toLocaleString dates, `formatCurrency` with its mis-encoded won sign) is the parameters `fmtDate` and `fmtMoney`. Date parsing and ISO strings become millisecond integers; "today" is the UTC day number.
- Randomness and fresh values (uuidv4, `v${Date.now()}`, randomBytes, the client's generateOrderId and Math.random ratings) are parameters.
- MenuHandler.PostMenu: does not model the 409 "Menu version already exists" branch. The put carries no condition, so that branch cannot be reached.
- The Joi schemas and their wrappers in src/lib/validation.ts are a foreign library.
- dist/ is a compiled copy of src/; only src/ is modelled.
- React rendering, hooks and react-query are not modelled. Neither are the axios service clients with their mock fallbacks: the app's order request is assumed to copy each cart line's price and quantity. Also out: `debounce`, `throttle`, `formatPrice`, `formatDateTime`/`formatTime`, `scrollToTop`, `isIOS`/`isAndroid`, `generateOrderId`.
- `getAllRestaurants` and `deleteRestaurant` in src/handlers/restaurant.ts are store plumbing outside the named core.
- JavaScript prototype keys (e.g. "constructor") are not modelled in the lookup tables of the apps (status badges, progress, category names).
- `JSON.stringify` comparison of selected options in the cart is modelled as value equality, which ignores key order.
- Upper-casing and lower-casing act on ASCII letters only (`Text.Upper`, `Text.Lower`).
- Restaurants.UpdateRestaurant: a kept entry named `categories` is written into the row's attributes, while the category list the category handlers read (`RestaurantRow.categories`) keeps its value. In the source that SET replaces the one `categories` attribute, which `getCategories` then reads (`|| []`). The model's JSON values hold objects and arrays only as the opaque `JsObject`, so what the category handlers would make of an arbitrary value written there is not modelled; `GetRestaurant` then answers both the written attribute and the unchanged list.
- The backend's menu items (`Types.MenuItem`) carry only the fields the handlers read: id, name, description, price, options and availability. Any other field a posted item brings, such as `imageUrl` or `category`, is stored and returned by the source as given, but dropped by the model. The customer app's own item type keeps `category`.
- Cart.RemoveItemMeaning: states which lines remain and how often, not their relative order. The order is kept by `Filter`'s definition.
- The owner app's active orders exclude CONFIRMED, while the dashboard's active count includes it. Both are modelled as written.
