# firstppt — a Dafny model of the member backend and the store/headquarters screens

firstppt is a franchise-management application. A Spring backend keeps
member accounts: sign-up refuses an email that is already taken and
otherwise saves the request under the key it names (overwriting the member
with that key, if any) or under a new one, login looks
the member up by email, compares the password and records the member's id in
the HTTP session, and a check-email endpoint answers whether an address is
free. A React front end serves two kinds of accounts: a store (point of sale,
kitchen display, order list, daily closing, inventory and purchase orders,
staff schedule and list, the menu board, notices and training) and
headquarters (materials, menus, stores, staff, notices and logistics). Shared
components supply a sortable, searchable, paged data table, a form dialog,
the registration form, the side-bar layout, and the routing in `App.tsx`
that picks a screen for the account kind and page.

The model follows the program's own shape. The member table, the service,
the HTTP session and the controller are classes whose methods change their
fields, with contracts that state the whole new state; the repository
queries are functions over the table. Each React screen is a module with a
class whose fields are the screen's `useState` variables: each handler is a
method of that class that assigns the new state, and the method's contract
ties that state to a function from the old state (and the event's data),
about which the lemmas are proved. The `filter`, `map`, `reduce` and `sort`
chains the handlers and render code compute (totals, counters, searches,
sort orders, statistics) are functions over sequences, since they build a
value without updating anything step by step. The loops that do update
variables step by step are methods with a `while` loop proved against the
function that specifies them: the `forEach` that finds the largest order
number (`OrderSystem.ScanMaxOrderNumber`), the accumulation of recent items
(`PosCart.RecentOrderItems`), the form dialog's validation `forEach`
(`FormModal.ValidateFields`), and the side bar's initial expansion and title
lookup (`Layout.InitialExpanded`, `Layout.HeaderTitle`); the order list's
chain of filter assignments is the straight-line method
`OrderList.RunFilters`. Timers and listeners that reload a screen from storage
are methods too: the order list never writes storage and reloads it every
second, so once storage holds orders a status change or cancellation made
there is undone by the next reload, which the model proves. Ids, totals, filters, sort orders and status transitions
are modelled as the code writes them, JavaScript's semantics included
(`Math.max` of nothing, `parseInt` of a string with a leading zero, string
concatenation); where the code as written does something its authors
evidently did not intend, the as-written behaviour is kept beside a
corrected one under "## Findings".

## Model

| member | source | states |
|---|---|---|
| `MemberEntity.FromDto` | src/main/java/com/example/demo/service/MemberService.java:21-33 | the row carries the key it is saved under and every other field of the sign-up body unchanged, password verbatim (converting back gives the body naming that key) |
| `MemberRepository.FindByEmail` | src/main/java/com/example/demo/repository/MemberRepositoryImpl.java:39-46 | returns the first row with that email, or nothing exactly when no row has it |
| `MemberRepository.ExistsByEmail` | src/main/java/com/example/demo/repository/MemberRepositoryImpl.java:54-61 | true exactly when some row has that email |
| `MemberRepository.FindByNameAndPhone` | src/main/java/com/example/demo/repository/MemberRepositoryImpl.java:70-79 | returns the first row with both that name and that phone number, or nothing exactly when none has both |
| `MemberRepository.KeyIndex` | src/main/java/com/example/demo/repository/MemberRepository.java:25 | the position of the row whose primary key is the given one, or none exactly when no row has that key |
| `MemberRepository.ExistsIffFound` | src/main/java/com/example/demo/repository/MemberRepositoryImpl.java:39-61 | the exists query and the find query agree on every table and email |
| `MemberRepository.FindAppendedFresh` | src/main/java/com/example/demo/repository/MemberRepositoryImpl.java:39-46 | after saving a row with an unused email, finding that email returns that row |
| `MemberRepository.ExistsAfterAppend` | src/main/java/com/example/demo/repository/MemberRepositoryImpl.java:54-61 | after a save, an email exists exactly when it existed before or is the new row's |
| `MemberService.Authenticate` | src/main/java/com/example/demo/service/MemberService.java:38-45 | fails with "no account" exactly when no row has the email, with "wrong password" exactly when the first such row's password differs, otherwise returns that row |
| `MemberService.AuthenticateIffRow` | src/main/java/com/example/demo/service/MemberService.java:38-45 | with unique emails, login succeeds exactly when some row has both the email and the password |
| `MemberService.SaveFreshKeepsEmailsUnique` | src/main/java/com/example/demo/service/MemberService.java:16-35 | saving a row whose email is unused keeps emails unique in the table |
| `MemberService.SaveRequest` | src/main/java/com/example/demo/service/MemberService.java:21-35 | save of the entity built from the body: with a null key, or a key no row has, the fields are appended under the next generated key; with the key of an existing row, that row is overwritten in place and keeps its key |
| `MemberService.SignupThenLogin` | src/main/java/com/example/demo/service/MemberService.java:16-45 | after a sign-up under a free email, inserted or merged, the email is taken and logging in with the same password returns the saved row |
| `MemberService.FindReplacedFresh` | src/main/java/com/example/demo/service/MemberService.java:35 | a row written over an existing one under an email no row had is what finding that email returns |
| `MemberService.SaveRequestKeepsValid` | src/main/java/com/example/demo/service/MemberService.java:16-35 | saving under a free email keeps emails unique and keys increasing below the next generated key, in both the insert and the merge case |
| `MemberService.MergeOverwritesMember` | src/main/java/com/example/demo/service/MemberService.java:21-35 | a body naming an existing member's key overwrites that member: the table keeps its length, the old email is gone, and the old member's login fails with "no account" |
| `MemberService.MemberService.constructor` | src/main/java/com/example/demo/service/MemberService.java:12-14 | the table starts empty and the first id is 1 |
| `MemberService.MemberService.Signup` | src/main/java/com/example/demo/service/MemberService.java:16-36 | a taken email is refused with the duplicate message and changes nothing; otherwise the body is saved: appended under a fresh key when its key is null or names no row, written over the row it names otherwise; emails stay unique |
| `MemberService.MemberService.Login` | src/main/java/com/example/demo/service/MemberService.java:38-45 | the result is the authentication outcome over the current table |
| `MemberService.MemberService.IsEmailDuplicated` | src/main/java/com/example/demo/service/MemberService.java:47-49 | true exactly when some row has that email |
| `MemberRestController.CheckEmailResponse` | src/main/java/com/example/demo/controller/MemberRestController.java:72-75 | always a success envelope carrying the flag; the message is "duplicate" exactly when the flag is set and "available" exactly when it is not |
| `MemberRestController.HttpSession.constructor` | src/main/java/com/example/demo/controller/MemberRestController.java:55 | a new session holds no attributes |
| `MemberRestController.MemberRestController.constructor` | src/main/java/com/example/demo/controller/MemberRestController.java:21-26 | the controller wraps the given service |
| `MemberRestController.MemberRestController.Signup` | src/main/java/com/example/demo/controller/MemberRestController.java:36-42 | succeeds exactly when the email was free, answering "sign-up complete" with the saved row's key: a new key for a body without a known key, the body's own key when it names a row, whose row is then overwritten; otherwise the service's error propagates and the table is unchanged |
| `MemberRestController.MemberRestController.Login` | src/main/java/com/example/demo/controller/MemberRestController.java:55-64 | on success stores the member's id under LOGIN_MEMBER_ID and answers "login succeeded" with the name; on failure the error propagates and the session is untouched |
| `MemberRestController.MemberRestController.CheckEmail` | src/main/java/com/example/demo/controller/MemberRestController.java:72-75 | answers the check-email envelope for whether the email exists |
| `StoreInventory.StockStatusOf` | frontreact/src/components/Store/InventoryManagement.tsx:930-935 | no stock is 'out' and only no stock; at most half the minimum is 'critical', at most the minimum 'low', more than the minimum 'sufficient' |
| `StoreInventory.MinStockRuleAgrees` | frontreact/src/components/Store/InventoryManagement.tsx:434-449 | for every minimum the save button admits (not negative) the status the minimum edit writes is exactly the detail view's status |
| `StoreInventory.MinStockRuleNegative` | frontreact/src/components/Store/InventoryManagement.tsx:434-449 | with a negative minimum the two rules part: an empty item is written as 'sufficient' by the edit but shown as 'out' |
| `StoreInventory.StatusMonotone` | frontreact/src/components/Store/InventoryManagement.tsx:930-935 | more stock never gives a worse status |
| `StoreInventory.Restocked` | frontreact/src/components/Store/InventoryManagement.tsx:466-474 | only the items with the id change: stock raised by the quantity, restock date set to today, status 'sufficient'; the rest are untouched |
| `StoreInventory.Adjusted` | frontreact/src/components/Store/InventoryManagement.tsx:477-486 | only the items with the id change: stock becomes the counted value, status 'low' when at or under the minimum and 'sufficient' otherwise |
| `StoreInventory.WithMinStock` | frontreact/src/components/Store/InventoryManagement.tsx:438-449 | only the items with the id change: the minimum is set and the status recomputed from the current stock |
| `StoreInventory.AdjustNeverOut` | frontreact/src/components/Store/InventoryManagement.tsx:477-486 | an adjusted item is never marked 'out' or 'critical', even when the counted stock is 0, which the detail view calls 'out' |
| `StoreInventory.MinStockEditConsistent` | frontreact/src/components/Store/InventoryManagement.tsx:434-449 | after a valid minimum edit every edited item carries the status the detail view computes |
| `StoreInventory.NewItem` | frontreact/src/components/Store/InventoryManagement.tsx:504-519 | the registered item has the given id, the initial stock or 0, '직접구매' for a blank supplier, and status 'low' exactly when a parsed initial stock is at or under the minimum |
| `StoreInventory.RegisteredIdIsFresh` | frontreact/src/components/Store/InventoryManagement.tsx:505 | on a non-empty list the maximum-plus-one id is a finite number above every existing id |
| `StoreInventory.BulkQuantity` | frontreact/src/components/Store/InventoryManagement.tsx:421 | the proposed quantity is the larger of the refill to the maximum and the minimum stock |
| `StoreInventory.BulkCart` | frontreact/src/components/Store/InventoryManagement.tsx:418-423 | line i holds the i-th selected item in inventory order (one line per selected item), each with the proposed quantity, which brings the stock to at least its maximum, and priced at quantity times unit price |
| `StoreInventory.BulkCartCoversSelection` | frontreact/src/components/Store/InventoryManagement.tsx:418-423 | every selected inventory item has a line in the bulk cart |
| `StoreInventory.WithQuantity` | frontreact/src/components/Store/InventoryManagement.tsx:847-852 | only the lines of that item change: the quantity is set and the line total recomputed |
| `StoreInventory.WithQuantityKeepsPriced` | frontreact/src/components/Store/InventoryManagement.tsx:847-852 | a quantity edit keeps every line's total equal to quantity times unit price |
| `StoreInventory.RemoveLineKeepsPriced` | frontreact/src/components/Store/InventoryManagement.tsx:854-857 | removing an item's lines leaves no line of it and keeps the others priced |
| `StoreInventory.PricedTotal` | frontreact/src/components/Store/InventoryManagement.tsx:1152 | the cart's total amount is the sum of quantity times unit price |
| `StoreInventory.QuickOrder` | frontreact/src/components/Store/InventoryManagement.tsx:490-500 | the quick order has one line of the form's item, status 'pending', and total quantity times unit price |
| `StoreInventory.QuickOrderIdRepeats` | frontreact/src/components/Store/InventoryManagement.tsx:492 | two quick orders placed 1000 ms apart get the same 'PO-' id |
| `StoreInventory.NonNumericIdGivesNaN` | frontreact/src/components/Store/InventoryManagement.tsx:864 | one order id that is not a number makes the submitted order's id NaN |
| `StoreInventory.CartOrderIdIsNaN` | frontreact/src/components/Store/InventoryManagement.tsx:864 | with the 'PO-001' sample at the head of the list the cart order's id is NaN, and so is that of the next one |
| `StoreInventory.CartOrderId` | frontreact/src/components/Store/InventoryManagement.tsx:864 | the corrected id differs from every existing order id |
| `StoreInventory.CartOrderIdAgrees` | frontreact/src/components/Store/InventoryManagement.tsx:864 | on a non-empty list of numeric ids the corrected id is exactly the maximum plus one |
| `StoreInventory.SubmitCheck` | frontreact/src/components/Store/InventoryManagement.tsx:1162-1175 | submission is allowed exactly when supplier and expected date are given and no line has a quantity of 0 or less; a blank field is reported first |
| `StoreInventory.CartOrderNumber` | frontreact/src/components/Store/InventoryManagement.tsx:865 | the order number starts with 'ORD' and ends with the order count plus one padded to three digits |
| `StoreInventory.SequenceNumberRoundTrip` | frontreact/src/components/Store/InventoryManagement.tsx:865 | below 1000 orders the sequence part has three digits and reads back as the new order's position |
| `StoreInventory.CartOrder` | frontreact/src/components/Store/InventoryManagement.tsx:863-880 | the corrected order: the corrected id, one line per cart line in order, the cart's sum as the total the order table shows, today as its order date, the form's supplier and expected date, and status 'pending' |
| `StoreInventory.CartOrderAsWritten` | frontreact/src/components/Store/InventoryManagement.tsx:863-880 | the order as the code writes it, read through the fields the order table shows: total 0 and no order date, since the sum and the date sit under keys the table never reads; every other field as in the corrected order |
| `StoreInventory.CartOrderTotalLost` | frontreact/src/components/Store/InventoryManagement.tsx:873-875 | for a cart whose lines all cost something, the order as written shows a total of 0 while the corrected order shows a positive total |
| `StoreInventory.PositiveLinesPositiveSum` | frontreact/src/components/Store/InventoryManagement.tsx:873 | a non-empty cart whose lines all cost something has a positive sum |
| `StoreInventory.StatusCountsAddUp` | frontreact/src/components/Store/InventoryManagement.tsx:154-158 | the four status filter counts add up to the item count and the low-stock card counts every item that is not 'sufficient' |
| `StoreInventory.RestockedValue` | frontreact/src/components/Store/InventoryManagement.tsx:616 | restocking one item raises its stock value by the quantity times its price |
| `StoreInventory.RestockValue` | frontreact/src/components/Store/InventoryManagement.tsx:466-474 | restocking an item with a unique id raises the total stock value by the quantity times its price |
| `StoreInventory.StoreInventory.constructor` | frontreact/src/components/Store/InventoryManagement.tsx:140-151 | the screen starts from the given stock and orders with nothing selected and an empty cart |
| `StoreInventory.StoreInventory.SaveMinStock` | frontreact/src/components/Store/InventoryManagement.tsx:914-922 | a blank or negative minimum is refused and changes nothing; otherwise the minimum edit is applied and each edited item's status is the detail view's |
| `StoreInventory.StoreInventory.Restock` | frontreact/src/components/Store/InventoryManagement.tsx:466-474 | the inventory becomes the restocked list |
| `StoreInventory.StoreInventory.Adjust` | frontreact/src/components/Store/InventoryManagement.tsx:477-486 | the inventory becomes the adjusted list |
| `StoreInventory.StoreInventory.PlaceQuickOrder` | frontreact/src/components/Store/InventoryManagement.tsx:490-501 | the quick order goes to the front of the order list |
| `StoreInventory.StoreInventory.Register` | frontreact/src/components/Store/InventoryManagement.tsx:502-521 | the new item goes last with an id above every other id |
| `StoreInventory.StoreInventory.SelectItem` | frontreact/src/components/Store/InventoryManagement.tsx:400-406 | checking appends the id; unchecking removes every occurrence of it |
| `StoreInventory.StoreInventory.SelectAll` | frontreact/src/components/Store/InventoryManagement.tsx:408-410 | selects every item id, or none |
| `StoreInventory.StoreInventory.BulkOrder` | frontreact/src/components/Store/InventoryManagement.tsx:412-427 | refused with nothing selected, leaving the cart; otherwise the cart becomes the bulk cart of the selection |
| `StoreInventory.StoreInventory.UpdateCartQuantity` | frontreact/src/components/Store/InventoryManagement.tsx:1155-1160 | the parsed quantity (blank or non-numeric read as 0) is applied when not negative and ignored otherwise |
| `StoreInventory.StoreInventory.RemoveCartLine` | frontreact/src/components/Store/InventoryManagement.tsx:854-857 | the item's lines leave the cart and the item leaves the selection |
| `StoreInventory.StoreInventory.SubmitCart` | frontreact/src/components/Store/InventoryManagement.tsx:858-887 | a refused submission changes nothing; an accepted one puts the corrected cart order first and empties the selection and the cart |
| `InventoryNewOrder.GoodLinesTotals` | frontreact/src/components/Store/InventoryNewOrder.tsx:37-38 | with lines priced at quantity times price and both positive, the total amount is the sum of the line totals, positive for a non-empty cart, and the item count is at least the line count |
| `InventoryNewOrder.NewLine` | frontreact/src/components/Store/InventoryNewOrder.tsx:46-50 | the appended line takes the timestamp as id, the draft's name, quantity and price, and total quantity times price |
| `InventoryNewOrder.AddLineTotal` | frontreact/src/components/Store/InventoryNewOrder.tsx:37-38 | adding a line adds its cost to the total amount and its quantity to the item count |
| `InventoryNewOrder.WithQuantity` | frontreact/src/components/Store/InventoryNewOrder.tsx:64-72 | only the lines with that id change: quantity set and line total recomputed |
| `InventoryNewOrder.WithQuantityKeepsGood` | frontreact/src/components/Store/InventoryNewOrder.tsx:64-72 | a positive quantity keeps every line priced and positive |
| `InventoryNewOrder.WithQuantityTotal` | frontreact/src/components/Store/InventoryNewOrder.tsx:64-72 | with one line of that id, the total amount moves by exactly the change in that line's cost |
| `InventoryNewOrder.RemoveKeepsGood` | frontreact/src/components/Store/InventoryNewOrder.tsx:74-77 | removing lines keeps the remaining lines priced and positive |
| `InventoryNewOrder.WithSuggestion` | frontreact/src/components/Store/InventoryNewOrder.tsx:79-87 | picking a suggestion copies its name, category, unit and price and keeps the quantity |
| `InventoryNewOrder.SuggestionCanBeAdded` | frontreact/src/components/Store/InventoryNewOrder.tsx:79-87 | a suggestion with a name and a price, picked into a draft with a positive quantity, passes the add guard |
| `InventoryNewOrder.OrderNumber` | frontreact/src/components/Store/InventoryNewOrder.tsx:105 | the order number is 'ORD' followed by digits only |
| `InventoryNewOrder.SubmitOrder` | frontreact/src/components/Store/InventoryNewOrder.tsx:89-107 | refused exactly when supplier or date is blank or the cart is empty, the blank fields reported first; otherwise the order carries the cart and its total amount |
| `InventoryNewOrder.SubmittedTotalPositive` | frontreact/src/components/Store/InventoryNewOrder.tsx:89-107 | every order the screen can submit from priced positive lines has a positive total |
| `InventoryNewOrder.InventoryNewOrder.constructor` | frontreact/src/components/Store/InventoryNewOrder.tsx:11-26 | blank order form, empty cart, the blank draft (quantity 1, unit 'kg', price 0), not adding |
| `InventoryNewOrder.InventoryNewOrder.SetForm` | frontreact/src/components/Store/InventoryNewOrder.tsx:11-16 | the order form becomes what was typed |
| `InventoryNewOrder.InventoryNewOrder.SetDraft` | frontreact/src/components/Store/InventoryNewOrder.tsx:20-26 | the draft becomes what was typed |
| `InventoryNewOrder.InventoryNewOrder.AddItem` | frontreact/src/components/Store/InventoryNewOrder.tsx:40-62 | adds exactly when the draft has a name, a positive quantity and a positive price; then appends the new line, resets the draft and closes the add row; otherwise changes nothing |
| `InventoryNewOrder.InventoryNewOrder.UpdateQuantity` | frontreact/src/components/Store/InventoryNewOrder.tsx:64-72 | a quantity of 0 or less is ignored; otherwise the cart becomes the edited cart |
| `InventoryNewOrder.InventoryNewOrder.RemoveItem` | frontreact/src/components/Store/InventoryNewOrder.tsx:74-77 | every line with that id leaves the cart |
| `InventoryNewOrder.InventoryNewOrder.SelectSuggestion` | frontreact/src/components/Store/InventoryNewOrder.tsx:79-87 | the draft takes the suggestion |
| `InventoryNewOrder.InventoryNewOrder.Submit` | frontreact/src/components/Store/InventoryNewOrder.tsx:89-122 | the outcome is the submission rule; on success the form is reset, the cart emptied and the total is positive; on refusal nothing changes |
| `InventoryOrders.WithStatus` | frontreact/src/components/Store/InventoryOrders.tsx:121-131 | only the orders with that id change: they take the new status, and the completion date becomes today exactly when the new status is 'completed' |
| `InventoryOrders.WithStatusIdempotent` | frontreact/src/components/Store/InventoryOrders.tsx:121-131 | setting the same status twice is the same as setting it once |
| `InventoryOrders.ApproveRow` | frontreact/src/components/Store/InventoryOrders.tsx:571-580 | the approve button exists on pending rows only, and moves that order to 'confirmed' |
| `InventoryOrders.ApproveKeepsActualDate` | frontreact/src/components/Store/InventoryOrders.tsx:571-580 | approving never changes a completion date, and the approved row is 'confirmed' |
| `InventoryOrders.BadgeLabel` | frontreact/src/components/Store/InventoryOrders.tsx:82-97 | the badge label is '알수없음' exactly for a status outside pending, confirmed, shipped, completed and cancelled |
| `InventoryOrders.StatusTextAsWritten` | frontreact/src/components/Store/InventoryOrders.tsx:467-476 | the export text is '알수없음' exactly for a status outside pending, processing, shipped, completed and cancelled |
| `InventoryOrders.ConfirmedExportsUnknown` | frontreact/src/components/Store/InventoryOrders.tsx:467-476 | an approved order shows the badge '승인됨' but is exported as '알수없음' |
| `InventoryOrders.StatusText` | frontreact/src/components/Store/InventoryOrders.tsx:467-476 | the corrected export text agrees with the written one on every status but 'confirmed' |
| `InventoryOrders.StatusTextCoversBadges` | frontreact/src/components/Store/InventoryOrders.tsx:82-97 | with the correction every status that has a badge has a known export text, and those texts are distinct |
| `InventoryOrders.PriorityText` | frontreact/src/components/Store/InventoryOrders.tsx:479-487 | the priority text is '알수없음' exactly for a priority outside urgent, high, normal and low |
| `InventoryOrders.PriorityTextsDistinct` | frontreact/src/components/Store/InventoryOrders.tsx:479-487 | the four priorities have distinct texts |
| `InventoryOrders.SummaryCountsBounded` | frontreact/src/components/Store/InventoryOrders.tsx:587-590 | the pending, confirmed and completed cards together never count more than the total |
| `InventoryOrders.ExportRow` | frontreact/src/components/Store/InventoryOrders.tsx:145-156 | corrected: one cell per header; blank order number or completion date become '-', the status through the corrected export text (so 'confirmed' is written '승인됨' where the code writes '알수없음'), the priority through its text, the item count in decimal |
| `InventoryOrders.ExportRows` | frontreact/src/components/Store/InventoryOrders.tsx:145-156 | corrected (status text as in `InventoryOrders.StatusText`): one export row per order, in order |
| `InventoryOrders.ExportCsv` | frontreact/src/components/Store/InventoryOrders.tsx:141-162 | corrected (status text as in `InventoryOrders.StatusText`): refused exactly for an empty list; otherwise the header line and one quoted line per order |
| `InventoryOrders.ExportRowSingle` | frontreact/src/components/Store/InventoryOrders.tsx:145-156 | an order whose text fields hold no line break gives cells without line breaks |
| `InventoryOrders.ExportLines` | frontreact/src/components/Store/InventoryOrders.tsx:159-162 | corrected (status text as in `InventoryOrders.StatusText`): read back line by line the CSV is the header line followed by one line per order |
| `InventoryOrders.InventoryOrders.constructor` | frontreact/src/components/Store/InventoryOrders.tsx:14-80 | the list starts from the given orders |
| `InventoryOrders.InventoryOrders.ChangeStatus` | frontreact/src/components/Store/InventoryOrders.tsx:121-131 | the list becomes the status-changed list |
| `InventoryOrders.InventoryOrders.Approve` | frontreact/src/components/Store/InventoryOrders.tsx:571-580 | the list becomes the list with that row approved |
| `StaffSchedule.Span` | frontreact/src/components/Store/StaffSchedule.tsx:426-432 | the time from clock-in to clock-out, moved to the next day when the clock-out is earlier |
| `StaffSchedule.WorkMinutes` | frontreact/src/components/Store/StaffSchedule.tsx:423-439 | nothing without both clock times; otherwise the span less the break, never below zero |
| `StaffSchedule.WorkMinutesBounded` | frontreact/src/components/Store/StaffSchedule.tsx:423-439 | a shift never counts a whole day or more, and a non-negative break only shortens it |
| `StaffSchedule.OvernightShift` | frontreact/src/components/Store/StaffSchedule.tsx:429-432 | a 20:00 to 02:00 shift with a 30-minute break counts 330 minutes |
| `StaffSchedule.FindStaff` | frontreact/src/components/Store/StaffSchedule.tsx:443 | the staff member found has that id; nothing is found exactly when no member has it |
| `StaffSchedule.RoundedPay` | frontreact/src/components/Store/StaffSchedule.tsx:447 | the rounded pay is within half a won of minutes times hourly wage over 60 |
| `StaffSchedule.Pay` | frontreact/src/components/Store/StaffSchedule.tsx:442-448 | nothing for an unknown staff member or a shift not completed; otherwise the rounded pay of the work time at the member's wage |
| `StaffSchedule.PayNonNegative` | frontreact/src/components/Store/StaffSchedule.tsx:442-448 | with a non-negative wage the pay is never negative |
| `StaffSchedule.PaySumNonNegative` | frontreact/src/components/Store/StaffSchedule.tsx:459-465 | a sum of pays at non-negative wages is never negative |
| `StaffSchedule.PartTimePayroll` | frontreact/src/components/Store/StaffSchedule.tsx:459-465 | the part-time payroll card is never negative when no wage is |
| `StaffSchedule.MinutesSumNonNegative` | frontreact/src/components/Store/StaffSchedule.tsx:453-455 | a sum of work times is never negative |
| `StaffSchedule.TotalWorkMinutes` | frontreact/src/components/Store/StaffSchedule.tsx:453-455 | the total work time card, over the completed shifts, is never negative |
| `StaffSchedule.FindTemplate` | frontreact/src/components/Store/StaffSchedule.tsx:627 | the template found has that type; none is found exactly when no template has it |
| `StaffSchedule.ResolveTimes` | frontreact/src/components/Store/StaffSchedule.tsx:629-647 | a template's times and break; for 'custom' the typed times and the typed break, 60 when blank or zero; otherwise empty times and no break |
| `StaffSchedule.TemplatesResolve` | frontreact/src/components/Store/StaffSchedule.tsx:155-228 | the closing and A templates resolve to their table times, vacation and day off to empty times |
| `StaffSchedule.CustomZeroBreak` | frontreact/src/components/Store/StaffSchedule.tsx:641 | a custom shift typed with a zero break gets the default 60 minutes |
| `StaffSchedule.NewSchedule` | frontreact/src/components/Store/StaffSchedule.tsx:649-660 | the new shift has the timestamp id, status 'scheduled', the form's staff, date and type, the resolved times, no recorded times, and the staff name or '' |
| `StaffSchedule.NewScheduleUnpaid` | frontreact/src/components/Store/StaffSchedule.tsx:649-660 | a shift just added has no work time and no pay |
| `StaffSchedule.TemplateTypes` | frontreact/src/components/Store/StaffSchedule.tsx:478-480 | the template types offered for an employment type never include 'custom', 'vacation' or 'off' |
| `StaffSchedule.TemplateTypesMatchTable` | frontreact/src/components/Store/StaffSchedule.tsx:478-480 | a template's type is offered for an employment type exactly when the table gives it that type |
| `StaffSchedule.Extras` | frontreact/src/components/Store/StaffSchedule.tsx:482-496 | after the templates come 'vacation' and 'off', then 'custom' exactly when the member is not part time |
| `StaffSchedule.WorkTypeOptions` | frontreact/src/components/Store/StaffSchedule.tsx:473-496 | an unknown member gets vacation, off and custom; a known one the templates of their type then the extras; 'custom' exactly when not part time |
| `StaffSchedule.NewVacation` | frontreact/src/components/Store/StaffSchedule.tsx:676-686 | a new request is 'pending', dated today and undecided, for the form's staff member with the form's dates, kind and reason; the name is that of the first staff member with the id, or empty for an unknown id |
| `StaffSchedule.Decided` | frontreact/src/components/Store/StaffSchedule.tsx:713-725 | only the requests with that id change: approved or rejected, decided by '매장장' today |
| `StaffSchedule.DecidedNeverPending` | frontreact/src/components/Store/StaffSchedule.tsx:713-725 | deciding never adds to the pending count |
| `StaffSchedule.DecidingLowersPending` | frontreact/src/components/Store/StaffSchedule.tsx:713-725 | deciding a pending request takes at least one off the pending count |
| `StaffSchedule.Attended` | frontreact/src/components/Store/StaffSchedule.tsx:699-708 | only the shifts with that id change: blank times keep the recorded ones, the status is set |
| `StaffSchedule.AttendancePays` | frontreact/src/components/Store/StaffSchedule.tsx:699-708 | recording both times and completing the shift pays it by the recorded times |
| `StaffSchedule.AttendanceChoices` | frontreact/src/components/Store/StaffSchedule.tsx:582-584 | the attendance form offers exactly today's shifts that are scheduled, confirmed or working |
| `StaffSchedule.SchedulesForDate` | frontreact/src/components/Store/StaffSchedule.tsx:358-366 | exactly the shifts of that date, of the chosen staff member (or all), whose name contains the search term ignoring case |
| `StaffSchedule.AllStaffNoSearch` | frontreact/src/components/Store/StaffSchedule.tsx:358-366 | with every staff member and no search term the day shows every shift of that date |
| `StaffSchedule.StaffSchedule.constructor` | frontreact/src/components/Store/StaffSchedule.tsx:322-323 | the screen starts from the given staff, shifts and requests |
| `StaffSchedule.StaffSchedule.AddSchedule` | frontreact/src/components/Store/StaffSchedule.tsx:620-666 | adds exactly when staff, date and type are given, appending the new shift; otherwise nothing changes |
| `StaffSchedule.StaffSchedule.AddVacation` | frontreact/src/components/Store/StaffSchedule.tsx:668-691 | adds exactly when staff, dates, type and reason are given, appending the new request; otherwise nothing changes |
| `StaffSchedule.StaffSchedule.UpdateAttendance` | frontreact/src/components/Store/StaffSchedule.tsx:693-711 | updates exactly when a shift and a status are given, to the attended list; otherwise nothing changes |
| `StaffSchedule.StaffSchedule.ApproveVacation` | frontreact/src/components/Store/StaffSchedule.tsx:713-725 | the requests become the decided list |
| `OrderList.LoadOrders` | frontreact/src/components/Store/OrderList.tsx:142-157 | the stored orders, each read back, when storage holds any; the sample orders otherwise |
| `OrderList.Reloaded` | frontreact/src/components/Store/OrderList.tsx:160-190 | what a reload shows: the loaded orders, each as many times as loaded, larger id first |
| `OrderList.LoadedFromPos` | frontreact/src/components/Store/OrderList.tsx:142-157 | once storage holds orders, every loaded order has a POS status and no cancel reason |
| `OrderList.ReloadDropsCancellation` | frontreact/src/components/Store/OrderList.tsx:172-197 | once storage holds orders, a reload shows only preparing, cooking, ready and completed orders with no cancel reason, so a status change or cancellation made on this screen does not survive it |
| `OrderList.DateFrom` | frontreact/src/components/Store/OrderList.tsx:229-240 | 'today', 'week' and 'month' start at or before the start of today; any other value sets no bound |
| `OrderList.IdDescendingIsTotal` | frontreact/src/components/Store/OrderList.tsx:243 | the larger-id-first comparison is a total preorder |
| `OrderList.FilteredOrders` | frontreact/src/components/Store/OrderList.tsx:200-246 | the filtered list is ordered larger id first, holds each order at most as often as the full list, and is as long as the number of orders passing every filter |
| `OrderList.FilteredOrdersMeaning` | frontreact/src/components/Store/OrderList.tsx:200-246 | the filtered list holds exactly the orders that pass search, status, payment, type and date, never more often than in the full list, larger ids first |
| `OrderList.NoFilterKeepsAll` | frontreact/src/components/Store/OrderList.tsx:200-246 | with an empty search and every filter off, the filtered list is a permutation of all orders |
| `OrderList.StageStep` | frontreact/src/components/Store/OrderList.tsx:200-241 | applying the next filter to what passed the earlier ones keeps exactly what passes all of them |
| `OrderList.StagesAreMatches` | frontreact/src/components/Store/OrderList.tsx:200-241 | the five successive filters together keep exactly what the full match keeps; none of them keeps everything |
| `OrderList.InactiveStep` | frontreact/src/components/Store/OrderList.tsx:204-227 | a filter whose input is blank or 'all' keeps every order |
| `OrderList.RunFilters` | frontreact/src/components/Store/OrderList.tsx:200-246 | the effect's step-by-step filtering and sort give exactly the filtered list |
| `OrderList.SameFilter` | frontreact/src/components/Store/OrderList.tsx:200-241 | two tests that agree on every order keep the same orders |
| `OrderList.CountByStatus` | frontreact/src/components/Store/OrderList.tsx:249-252 | every order for 'all', otherwise the orders with that status, never more than all |
| `OrderList.TabCountsAddUp` | frontreact/src/components/Store/OrderList.tsx:249-252 | when every status is one of the six known ones, the six tab counts add up to the 'all' count |
| `OrderList.KnownCountsAddUp` | frontreact/src/components/Store/OrderList.tsx:249-252 | orders with known statuses split into the six status counts |
| `OrderList.SetStatus` | frontreact/src/components/Store/OrderList.tsx:280-289 | only the orders with that id change, and only their status |
| `OrderList.Cancel` | frontreact/src/components/Store/OrderList.tsx:292-301 | only the orders with that id change: status 'cancelled' and the reason recorded |
| `OrderList.SetStatusCounts` | frontreact/src/components/Store/OrderList.tsx:280-289 | a status change adds the moved orders to the new status's tab and keeps the total |
| `OrderList.CancelTwice` | frontreact/src/components/Store/OrderList.tsx:292-301 | cancelling twice is cancelling once with the later reason |
| `OrderList.StatusText` | frontreact/src/components/Store/OrderList.tsx:325-335 | an unknown status reads '알수없음', and '완료' is the text of 'ready' and only of it |
| `OrderList.StatusTextDistinct` | frontreact/src/components/Store/OrderList.tsx:325-335 | the six known statuses have six different texts, none of them '알수없음' |
| `OrderList.OrderList.constructor` | frontreact/src/components/Store/OrderList.tsx:160-169 | the orders are the reloaded list (loaded, larger id first), shown unfiltered, with the default filters and the 'today' date filter |
| `OrderList.OrderList.Reload` | frontreact/src/components/Store/OrderList.tsx:172-197 | on a storage event, on focus and every second the orders become the reloaded list of what storage now holds, whatever this screen changed before |
| `OrderList.OrderList.SetCriteria` | frontreact/src/components/Store/OrderList.tsx:164-168 | the filter inputs become what was chosen |
| `OrderList.OrderList.Refilter` | frontreact/src/components/Store/OrderList.tsx:200-246 | the shown list becomes the filtered list of the current orders and inputs |
| `OrderList.OrderList.UpdateOrderStatus` | frontreact/src/components/Store/OrderList.tsx:280-289 | the orders become the status-changed list |
| `OrderList.OrderList.CancelOrder` | frontreact/src/components/Store/OrderList.tsx:292-301 | the orders become the cancelled list |
| `KitchenDisplay.FromStored` | frontreact/src/components/Store/KitchenDisplay.tsx:117-121 | one screen order per stored order, in order, none of them marked urgent |
| `KitchenDisplay.LoadOrders` | frontreact/src/components/Store/KitchenDisplay.tsx:112-141 | only preparing, cooking and ready orders are kept, and every such order is kept: from storage when it holds any, otherwise from the samples |
| `KitchenDisplay.SetStoredStatus` | frontreact/src/components/Store/KitchenDisplay.tsx:210-216 | the stored list with the status of the orders of that id replaced |
| `KitchenDisplay.SetStatus` | frontreact/src/components/Store/KitchenDisplay.tsx:200-206 | the screen list with the status of the orders of that id replaced, priorities kept |
| `KitchenDisplay.SetStatusOnlyThatOrder` | frontreact/src/components/Store/KitchenDisplay.tsx:200-206 | orders with another id are unchanged; orders with that id change only their status |
| `KitchenDisplay.SetStatusIdempotent` | frontreact/src/components/Store/KitchenDisplay.tsx:200-206 | setting a status twice is the same as setting it once |
| `KitchenDisplay.WithoutOrder` | frontreact/src/components/Store/KitchenDisplay.tsx:250-252 | exactly the orders with another id remain |
| `KitchenDisplay.WithoutAbsentOrder` | frontreact/src/components/Store/KitchenDisplay.tsx:250-252 | removing an id that is not on the screen changes nothing |
| `KitchenDisplay.ElapsedMinutes` | frontreact/src/components/Store/KitchenDisplay.tsx:257-260 | the whole minutes elapsed since the order time, rounded down |
| `KitchenDisplay.StatusRank` | frontreact/src/components/Store/KitchenDisplay.tsx:269-271 | cooking before preparing before ready, anything else last |
| `KitchenDisplay.KitchenLeqIsTotalPreorder` | frontreact/src/components/Store/KitchenDisplay.tsx:263-276 | the comparator is a total preorder, so the sort is well defined |
| `KitchenDisplay.SortedOrders` | frontreact/src/components/Store/KitchenDisplay.tsx:263-276 | the sorted list is a permutation of the orders; it is computed but not rendered, since the columns (lines 372, 466, 560) filter the unsorted orders |
| `KitchenDisplay.SortedOrdersOrder` | frontreact/src/components/Store/KitchenDisplay.tsx:263-276 | in the computed sorted list urgent orders come first; then cooking, preparing, ready, the rest; then the older order first |
| `KitchenDisplay.StatusCount` | frontreact/src/components/Store/KitchenDisplay.tsx:279-281 | a status count never exceeds the number of orders |
| `KitchenDisplay.StatusCountsAddUp` | frontreact/src/components/Store/KitchenDisplay.tsx:279-281 | the preparing, cooking, ready and completed counts add up to the number of orders |
| `KitchenDisplay.LoadedCountsCoverAll` | frontreact/src/components/Store/KitchenDisplay.tsx:279-281 | on a freshly loaded list the three counters cover every order |
| `KitchenDisplay.NoneCounted` | frontreact/src/components/Store/KitchenDisplay.tsx:279-281 | a status no order has counts zero |
| `KitchenDisplay.KitchenDisplay.constructor` | frontreact/src/components/Store/KitchenDisplay.tsx:143-146 | the screen starts with the loaded orders, sound on |
| `KitchenDisplay.KitchenDisplay.Refresh` | frontreact/src/components/Store/KitchenDisplay.tsx:158-196 | every refresh replaces the screen's orders with a fresh load from storage |
| `KitchenDisplay.KitchenDisplay.UpdateOrderStatus` | frontreact/src/components/Store/KitchenDisplay.tsx:198-226 | the status changes on the screen and in storage; a notice is given exactly when sound is on and the order became ready |
| `KitchenDisplay.KitchenDisplay.RemoveAfterDelay` | frontreact/src/components/Store/KitchenDisplay.tsx:227-231 | the delayed removal drops the completed order from the screen |
| `KitchenDisplay.KitchenDisplay.CompleteOrder` | frontreact/src/components/Store/KitchenDisplay.tsx:235-254 | the order becomes completed in storage and leaves the screen at once |
| `KitchenDisplay.CompleteOrderEffect` | frontreact/src/components/Store/KitchenDisplay.tsx:235-254 | after pickup the stored order of that id is completed, every other stored order unchanged, and the screen no longer shows it |
| `PosCart.ShiftQuantity` | frontreact/src/components/Store/OrderSystem.tsx:276-280 | the cart with the quantity of the lines of that id moved by the step, same length |
| `PosCart.ShiftQuantityAt` | frontreact/src/components/Store/OrderSystem.tsx:276-280 | with one line per item, a quantity step changes only that item's line |
| `PosCart.ShiftQuantityWellFormed` | frontreact/src/components/Store/OrderSystem.tsx:276-280 | a quantity step keeps one line per item, and a non-negative step keeps every quantity at least 1 |
| `PosCart.AddLineEffect` | frontreact/src/components/Store/OrderSystem.tsx:268-291 | adding an available item keeps one line per item, raises the subtotal by its unit price, adds a line only for a new item, and leaves the item in the cart |
| `PosCart.RemoveAtWellFormed` | frontreact/src/components/Store/OrderSystem.tsx:301-302 | deleting one line keeps one line per item with positive quantities |
| `PosCart.DropLineEffect` | frontreact/src/components/Store/OrderSystem.tsx:301-302 | dropping the single line of an item removes exactly that line and lowers the subtotal by its amount |
| `PosCart.RemoveLineEffect` | frontreact/src/components/Store/OrderSystem.tsx:293-304 | removing lowers the subtotal by one unit price of the item and keeps the cart well formed; an item not in the cart changes nothing |
| `PosCart.RemoveUndoesAdd` | frontreact/src/components/Store/OrderSystem.tsx:268-304 | removing right after adding an available item gives back the cart |
| `PosCart.LineAsClicked` | frontreact/src/components/Store/OrderSystem.tsx:282-288 | what the cart's "+" hands to addToCart: a line, built without `available`, so it reads as not available |
| `PosCart.EntryAsClicked` | frontreact/src/components/Store/OrderSystemNew.tsx:296 | what a "recently ordered" card hands to addToCart: a tally entry, built without `available`, so it reads as not available |
| `PosCart.PlusAsWrittenRefused` | frontreact/src/components/Store/OrderSystem.tsx:625-629 | as written, "+" on a line leaves the cart and its subtotal as they are, which differs from one more unit |
| `PosCart.RecentCardAsWrittenRefused` | frontreact/src/components/Store/OrderSystemNew.tsx:373-377 | as written, a "recently ordered" card leaves the cart as it is |
| `PosCart.PlusOneEffect` | frontreact/src/components/Store/OrderSystem.tsx:276-280 | the intended "+" raises only that line by one unit, keeps the cart well formed, adds the line's price to the subtotal, and "−" undoes it |
| `PosCart.RecentCardEffect` | frontreact/src/components/Store/OrderSystemNew.tsx:173-196 | the intended card adds one unit of the entry's item when the menu sells it (a new line at the entry's price, or one more on its line) and nothing otherwise, keeping the cart well formed |
| `PosCart.Total` | frontreact/src/components/Store/OrderSystem.tsx:316-322 | an amount discount is subtracted, a percent discount takes that share off; 100 percent gives 0 and no discount gives the subtotal |
| `PosCart.PercentTotalInRange` | frontreact/src/components/Store/OrderSystem.tsx:316-322 | a percent discount between 0 and 100 keeps the total between 0 and the subtotal |
| `PosCart.AmountDiscountNotClamped` | frontreact/src/components/Store/OrderSystem.tsx:316-322 | an amount discount larger than the subtotal gives a negative total |
| `PosCart.CustomDiscountGuard` | frontreact/src/components/Store/OrderSystem.tsx:682-691 | a typed value is applied exactly when it is a positive number and, for a percent discount, at most 100; over 100 percent is refused with a message; anything else is ignored |
| `PosCart.GuardedPercentTotalInRange` | frontreact/src/components/Store/OrderSystem.tsx:682-691 | any percent the guard lets through keeps the total between 0 and the subtotal |
| `PosCart.PercentOverHundredNegative` | frontreact/src/components/Store/OrderSystem.tsx:316-322 | a percent discount above 100, which the kind buttons can produce from an amount already applied, makes any positive subtotal negative |
| `PosCart.QuantityOfSnoc` | frontreact/src/components/Store/OrderSystem.tsx:431-440 | one more line adds its quantity to its own item's sum |
| `PosCart.QuantityOfAbsent` | frontreact/src/components/Store/OrderSystem.tsx:431-440 | an item that occurs in no line sums to 0 |
| `PosCart.TallyStepCorrect` | frontreact/src/components/Store/OrderSystem.tsx:431-440 | one reduce step keeps one entry per item, each with the summed quantity so far |
| `PosCart.TallyStepFound` | frontreact/src/components/Store/OrderSystem.tsx:434-435 | adding to an existing entry keeps the tally correct |
| `PosCart.TallyStepNew` | frontreact/src/components/Store/OrderSystem.tsx:436-438 | appending an entry for a new item keeps the tally correct |
| `PosCart.TallyExtend` | frontreact/src/components/Store/OrderSystem.tsx:431-440 | the tally of one more line is one more reduce step on the tally so far |
| `PosCart.Tally` | frontreact/src/components/Store/OrderSystem.tsx:431-440 | the reduce gives one entry per item seen, holding a line of that item and its summed quantity, and every item seen has an entry |
| `PosCart.RecentLines` | frontreact/src/components/Store/OrderSystem.tsx:429-431 | a line is taken exactly when it is a line of one of the latest five orders |
| `PosCart.FlattenItems` | frontreact/src/components/Store/OrderSystem.tsx:431 | a line is in the flattened list exactly when it is a line of some order |
| `PosCart.CountDescendingIsTotal` | frontreact/src/components/Store/OrderSystem.tsx:441 | the larger-count-first comparison is a total preorder |
| `PosCart.RecentItems` | frontreact/src/components/Store/OrderSystem.tsx:428-445 | at most six entries (what they are is stated by RecentItemsMeaning) |
| `PosCart.RecentItemsMeaning` | frontreact/src/components/Store/OrderSystem.tsx:428-445 | six entries, or all of the tally when it has fewer; each an entry of the tally of the latest five orders, one per item, with the summed quantity, largest counts first; every tally entry left out counts no more than any entry kept |
| `PosCart.TopEntriesKept` | frontreact/src/components/Store/OrderSystem.tsx:441-444 | the first entries of a count-descending reordering come from the tally, and whatever is cut off counts no more than anything kept |
| `PosCart.PermutationKeepsIdsDistinct` | frontreact/src/components/Store/OrderSystem.tsx:441 | reordering entries with distinct items keeps them distinct |
| `PosCart.RecentOrderItems` | frontreact/src/components/Store/OrderSystem.tsx:428-445 | the loop that accumulates, sorts and cuts gives exactly the recent items |
| `OrderSystem.RemoveFirst` | frontreact/src/components/Store/OrderSystem.tsx:351 | removing the first '#' drops one character when there is one, the leading one when the id starts with it, and nothing otherwise |
| `OrderSystem.AllDigitsLeading` | frontreact/src/components/Store/OrderSystem.tsx:351 | a string of digits is its own leading-digit prefix |
| `OrderSystem.OrderIdRoundTrip` | frontreact/src/components/Store/OrderSystem.tsx:351-357 | reading the number back out of a generated '#' id gives the number |
| `OrderSystem.MaxOrderNumber` | frontreact/src/components/Store/OrderSystem.tsx:349-355 | at least every parsed order number, and either 0 or the number of some order |
| `OrderSystem.ScanMaxOrderNumber` | frontreact/src/components/Store/OrderSystem.tsx:349-355 | the forEach that keeps the largest number seen ends with the maximum order number |
| `OrderSystem.NextNumberRoundTrip` | frontreact/src/components/Store/OrderSystem.tsx:357 | the next id reads back as one more than the maximum |
| `OrderSystem.NextIdAbove` | frontreact/src/components/Store/OrderSystem.tsx:349-357 | an id numbered one above a bound on every parsed number equals none of the ids |
| `OrderSystem.ComputeNextOrderId` | frontreact/src/components/Store/OrderSystem.tsx:346-357 | the scan followed by the padding gives the next order id |
| `OrderSystem.NextOrderIdIsFresh` | frontreact/src/components/Store/OrderSystem.tsx:346-357 | the next id parses, its number exceeds every parsed number, and it equals no existing id |
| `OrderSystem.NewOrderFields` | frontreact/src/components/Store/OrderSystem.tsx:359-370 | the order has the id, the cart's lines, status 'preparing', the subtotal as original total, the discounted total, their difference as discount, and no customer exactly when the name is blank |
| `OrderSystem.OrderTypeKey` | frontreact/src/components/Store/OrderSystem.tsx:381-385 | each order type maps to its own context key: 'visit', 'takeout' or 'delivery' |
| `OrderSystem.PaymentKey` | frontreact/src/components/Store/OrderSystem.tsx:387-404 | the card button maps to 'card', the voucher button to 'voucher', and every other method, cash included, to 'cash' |
| `OrderSystem.ContextItems` | frontreact/src/components/Store/OrderSystem.tsx:394-400 | one context line per cart line, in order, with its id, name, price and quantity |
| `OrderSystem.HandedToContext` | frontreact/src/components/Store/OrderSystem.tsx:393-404 | the order handed to addOrder has the cart's lines, the discounted total, the order type's key, the payment method's key and status 'preparing' |
| `OrderSystem.OrderSystem.constructor` | frontreact/src/components/Store/OrderSystem.tsx:230-240 | the first render: empty cart, the sample orders shown, storage as it was, nothing handed to the context, no discount (amount kind), no customer, eat-in |
| `OrderSystem.OrderSystem.Mount` | frontreact/src/components/Store/OrderSystem.tsx:253-265 | absent storage is initialised with the shown sample orders; a non-empty stored list replaces the shown orders; an empty stored list changes nothing |
| `OrderSystem.OrderSystem.SetOrderType` | frontreact/src/components/Store/OrderSystem.tsx:566-590 | the order type becomes the chosen one |
| `OrderSystem.OrderSystem.SetCustomerName` | frontreact/src/components/Store/OrderSystem.tsx:559-563 | the customer name becomes the typed text |
| `OrderSystem.OrderSystem.SetDiscountType` | frontreact/src/components/Store/OrderSystem.tsx:650-666 | the discount kind becomes the chosen one and the discount keeps its number, so 5000 won becomes 5000% |
| `OrderSystem.OrderSystem.Record` | frontreact/src/components/Store/OrderSystem.tsx:372-404 | the paid order goes first in the shown list and in storage (absent storage reading as empty) and is appended to what the context received |
| `OrderSystem.OrderSystem.AddToCart` | frontreact/src/components/Store/OrderSystem.tsx:268-291 | the cart becomes the cart with the item added and stays well formed |
| `OrderSystem.OrderSystem.PlusButton` | frontreact/src/components/Store/OrderSystem.tsx:625-629 | the corrected "+" of a cart line: that line gets one more unit, nothing else changes, the cart stays well formed and the subtotal rises by its price |
| `OrderSystem.OrderSystem.RemoveFromCart` | frontreact/src/components/Store/OrderSystem.tsx:293-304 | the cart becomes the cart with one unit of the item removed and stays well formed |
| `OrderSystem.OrderSystem.ClearCart` | frontreact/src/components/Store/OrderSystem.tsx:306-310 | the cart is emptied and the discount reset |
| `OrderSystem.OrderSystem.ApplyDiscount` | frontreact/src/components/Store/OrderSystem.tsx:324-328 | the discount value and kind become the given ones |
| `OrderSystem.OrderSystem.RemoveDiscount` | frontreact/src/components/Store/OrderSystem.tsx:330-333 | the discount becomes 0 |
| `OrderSystem.OrderSystem.ApplyCustomDiscount` | frontreact/src/components/Store/OrderSystem.tsx:682-691 | the outcome is the guard's; the discount changes only when the guard applies the value |
| `OrderSystem.OrderSystem.ProcessPayment` | frontreact/src/components/Store/OrderSystem.tsx:335-421 | an empty cart changes nothing, the payment method included; otherwise the new order, numbered above every stored or shown order, goes first in the shown list and in storage (absent storage reading as empty), is handed to the order context with its mapped order type and payment method, the chosen payment method is recorded, and cart, customer and discount are reset |
| `OrderSystemNew.PresetsPassGuard` | frontreact/src/components/Store/OrderSystemNew.tsx:525-552 | every preset discount button would also pass the custom-discount guard |
| `OrderSystemNew.TimestampIdRepeats` | frontreact/src/components/Store/OrderSystemNew.tsx:248 | two payments 1000 ms apart get the same order id |
| `OrderSystemNew.NewOrder` | frontreact/src/components/Store/OrderSystemNew.tsx:250-261 | the order has the timestamp id, the cart's lines, status 'preparing', the subtotal, the discounted total and their difference |
| `OrderSystemNew.OrderSystemNew.constructor` | frontreact/src/components/Store/OrderSystemNew.tsx:153-163 | empty cart, the given orders, no discount (amount kind), no customer, eat-in |
| `OrderSystemNew.OrderSystemNew.SetOrderType` | frontreact/src/components/Store/OrderSystemNew.tsx:328-335 | the order type becomes the chosen one |
| `OrderSystemNew.OrderSystemNew.SetCustomerName` | frontreact/src/components/Store/OrderSystemNew.tsx:466-469 | the customer name becomes the typed text |
| `OrderSystemNew.OrderSystemNew.AddToCart` | frontreact/src/components/Store/OrderSystemNew.tsx:173-196 | the cart becomes the cart with the item added and stays well formed |
| `OrderSystemNew.OrderSystemNew.PlusButton` | frontreact/src/components/Store/OrderSystemNew.tsx:502-506 | the corrected "+" of a cart line: that line gets one more unit, nothing else changes, the cart stays well formed and the subtotal rises by its price |
| `OrderSystemNew.OrderSystemNew.ClickRecent` | frontreact/src/components/Store/OrderSystemNew.tsx:373-377 | the corrected "recently ordered" card: the entry's item is added when the menu sells it, and the cart is unchanged otherwise |
| `OrderSystemNew.OrderSystemNew.RemoveFromCart` | frontreact/src/components/Store/OrderSystemNew.tsx:198-209 | the cart becomes the cart with one unit of the item removed and stays well formed |
| `OrderSystemNew.OrderSystemNew.ClearCart` | frontreact/src/components/Store/OrderSystemNew.tsx:211-215 | the cart is emptied and the discount reset |
| `OrderSystemNew.OrderSystemNew.ApplyPreset` | frontreact/src/components/Store/OrderSystemNew.tsx:525-552 | a preset button sets that preset's value and kind |
| `OrderSystemNew.OrderSystemNew.RemoveDiscount` | frontreact/src/components/Store/OrderSystemNew.tsx:235-238 | the discount becomes 0 |
| `OrderSystemNew.OrderSystemNew.ProcessPayment` | frontreact/src/components/Store/OrderSystemNew.tsx:240-285 | an empty cart changes nothing, the payment method included; otherwise the new order goes first, the chosen payment method is recorded, and cart, customer and discount are reset |
| `OrderSystemNew.OrderSystemNew.Record` | frontreact/src/components/Store/OrderSystemNew.tsx:264 | the paid order goes first in the list |
| `OrderSystemNew.OrderSystemNew.ResetAfterPayment` | frontreact/src/components/Store/OrderSystemNew.tsx:267-279 | the payment method is recorded and the cart, customer name and discount are reset |
| `DailyClosing.CashFromCountsUpdate` | frontreact/src/components/Store/DailyClosing.tsx:93-96 | changing the count of one listed denomination changes the counted cash by the change in count times its face value |
| `DailyClosing.CountedCashUpdate` | frontreact/src/components/Store/DailyClosing.tsx:125-130 | a count change on the closing screen moves the counted cash by the change in count times the face value |
| `DailyClosing.ZeroCountsZeroCash` | frontreact/src/components/Store/DailyClosing.tsx:93-96 | with every count at zero the drawer counts as empty |
| `DailyClosing.ZeroVouchers` | frontreact/src/components/Store/DailyClosing.tsx:98 | with every voucher amount at zero the voucher total is zero |
| `DailyClosing.ClosingCheck` | frontreact/src/components/Store/DailyClosing.tsx:139-152 | the closing completes exactly when some cash was counted and the difference is at most 1000 won either way; nothing counted is reported first |
| `DailyClosing.ToleranceIsInclusive` | frontreact/src/components/Store/DailyClosing.tsx:145-148 | a difference of exactly 1000 won either way closes, 1001 does not |
| `DailyClosing.RemovedExpensesSplitTotal` | frontreact/src/components/Store/DailyClosing.tsx:120-123 | the expenses kept and the expenses removed together add up to the total expenses |
| `DailyClosing.AddExpenseLowersExpected` | frontreact/src/components/Store/DailyClosing.tsx:89-90 | adding an expense lowers the expected cash by its amount |
| `DailyClosing.DailyClosing.constructor` | frontreact/src/components/Store/DailyClosing.tsx:57-85 | today's payments and the sample expenses, a float of 200,000 won, nothing counted, no vouchers, not closed |
| `DailyClosing.DailyClosing.RefreshPayments` | frontreact/src/components/Store/DailyClosing.tsx:66-72 | the once-a-second refresh replaces today's cash and card payments |
| `DailyClosing.DailyClosing.SetStartingCash` | frontreact/src/components/Store/DailyClosing.tsx:248-253 | before closing, the starting cash becomes the typed number, and 0 when the field is empty or unreadable (NaN); once closed the disabled input changes nothing |
| `DailyClosing.DailyClosing.AddExpense` | frontreact/src/components/Store/DailyClosing.tsx:102-118 | adds exactly when closing is not complete (the button is disabled after, line 447) and a description and an amount are given, appending the expense; otherwise nothing changes |
| `DailyClosing.DailyClosing.RemoveExpense` | frontreact/src/components/Store/DailyClosing.tsx:120-123 | before closing, every expense with that id is dropped; once closed the button is gone (line 464) and nothing changes |
| `DailyClosing.DailyClosing.SetDenomCount` | frontreact/src/components/Store/DailyClosing.tsx:125-130 | before closing, only that denomination's count changes; once closed the disabled inputs (lines 277, 308) change nothing |
| `DailyClosing.DailyClosing.SetVoucher` | frontreact/src/components/Store/DailyClosing.tsx:132-137 | before closing, only that voucher kind's amount changes; once closed the disabled inputs (line 359) change nothing; the object keeps exactly the five kinds |
| `DailyClosing.DailyClosing.ScreenVoucherTotal` | frontreact/src/components/Store/DailyClosing.tsx:98 | the sum of every value of the voucher object equals the sum of the five voucher kinds |
| `DailyClosing.ValuesSumRemove` | frontreact/src/components/Store/DailyClosing.tsx:98 | the sum of an object's values does not depend on the order they are taken in |
| `DailyClosing.ValuesSumOfKinds` | frontreact/src/components/Store/DailyClosing.tsx:98 | summing the values of a list of distinct keys equals summing the keys one after another |
| `DailyClosing.DailyClosing.CompleteClosing` | frontreact/src/components/Store/DailyClosing.tsx:139-152 | the outcome is the closing rule on the counted cash and the difference; the screen is closed once a closing succeeds |
| `StaffList.FilteredStaff` | frontreact/src/components/Store/StaffList.tsx:89-97 | a member is listed exactly when the search term occurs, ignoring case, in the name, the position or the department and both select filters are 'all' or equal to the member's status and department; nothing is listed that is not on the staff list |
| `StaffList.NoFilterShowsAll` | frontreact/src/components/Store/StaffList.tsx:82-84 | with the initial empty search and both filters on 'all', the whole staff list is shown in its order |
| `StaffList.NewMember` | frontreact/src/components/Store/StaffList.tsx:158-161 | an added member takes the current time in milliseconds, as a decimal string, for an id and every submitted field; no resignation date when the form has none |
| `StaffList.Merge` | frontreact/src/components/Store/StaffList.tsx:169-173 | an edit keeps the member's id and replaces every field the form submits; a resignation date the form leaves out is kept |
| `StaffList.MergeIdempotent` | frontreact/src/components/Store/StaffList.tsx:169-173 | submitting the same edit twice gives the same member as submitting it once |
| `StaffList.Edited` | frontreact/src/components/Store/StaffList.tsx:169-173 | the list keeps its length; the member whose id is being edited is merged with the form and every other member is unchanged |
| `StaffList.EditKeepsIds` | frontreact/src/components/Store/StaffList.tsx:168-176 | an edit never changes any member's id, and with nobody being edited the list is unchanged |
| `StaffList.StatusText` | frontreact/src/components/Store/StaffList.tsx:474-482 | the text is '알수없음' exactly when the status is not one of active, vacation, inactive, resigned |
| `StaffList.StatusTextsDistinct` | frontreact/src/components/Store/StaffList.tsx:474-482 | the four known statuses have four different texts |
| `StaffList.ExportRow` | frontreact/src/components/Store/StaffList.tsx:189-198 | one exported row has the eight columns; none of the first seven is empty, since an empty field is written as '-', and the last is the status text |
| `StaffList.ExportRows` | frontreact/src/components/Store/StaffList.tsx:189-198 | one exported row per listed member, in list order |
| `StaffList.ExportCsv` | frontreact/src/components/Store/StaffList.tsx:185-205 | the download is refused exactly when the filtered list is empty; otherwise it is the header line followed by the quoted rows |
| `StaffList.ExportLines` | frontreact/src/components/Store/StaffList.tsx:200-205 | when no field holds a line break, splitting the exported text at line breaks gives the header line and then one line per listed member |
| `StaffList.StaffList.constructor` | frontreact/src/components/Store/StaffList.tsx:81-86 | the page opens on the initial staff list with an empty search, both filters on 'all' and nobody being edited |
| `StaffList.StaffList.SetFilters` | frontreact/src/components/Store/StaffList.tsx:577 | the search term and the two filters take the chosen values; the list is untouched |
| `StaffList.StaffList.AddStaff` | frontreact/src/components/Store/StaffList.tsx:157-166 | the new member is appended at the end and every existing member is unchanged |
| `StaffList.StaffList.StartEdit` | frontreact/src/components/Store/StaffList.tsx:656 | the chosen member becomes the one being edited |
| `StaffList.StaffList.EditStaff` | frontreact/src/components/Store/StaffList.tsx:168-177 | the list becomes the edited list and the edit ends |
| `StaffList.StaffList.Export` | frontreact/src/components/Store/StaffList.tsx:179-211 | the download is computed from the currently filtered list |
| `StoreMenu.FilteredMenus` | frontreact/src/components/Store/MenuManagement.tsx:259-270 | a menu is listed exactly when the search is empty or occurs, ignoring case, in its name or category, and the tab is 'all', its category, 'available' with the menu on sale, or 'soldout' with the menu sold out |
| `StoreMenu.EmptySearchShowsAll` | frontreact/src/components/Store/MenuManagement.tsx:244-245 | with the initial empty search on the 'all' tab every menu is listed, in order |
| `StoreMenu.TabsMatchCounts` | frontreact/src/components/Store/MenuManagement.tsx:248-256 | on menus of the four real categories, the 'available' and 'soldout' tabs list exactly the menus their badge counts, so each badge equals its tab's length |
| `StoreMenu.SetAvailable` | frontreact/src/components/Store/MenuManagement.tsx:318-323 | every menu with that id takes the switch's value; every other menu is unchanged |
| `StoreMenu.MarkSoldOut` | frontreact/src/components/Store/MenuManagement.tsx:335-337 | every menu with that id is marked sold out; every other menu is unchanged |
| `StoreMenu.Restock` | frontreact/src/components/Store/MenuManagement.tsx:344-349 | every menu with that id is no longer sold out and has a sufficient stock level; every other menu is unchanged |
| `StoreMenu.SwitchLastWins` | frontreact/src/components/Store/MenuManagement.tsx:318-323 | of two switches of the same menu the last wins, and switching a menu to the value it has changes nothing |
| `StoreMenu.SoldOutLeavesSale` | frontreact/src/components/Store/MenuManagement.tsx:329-342 | a menu marked sold out is off sale and listed on the 'soldout' tab; every other menu is untouched |
| `StoreMenu.RestockUndoesSoldOut` | frontreact/src/components/Store/MenuManagement.tsx:344-349 | restocking a sold-out menu gives the same list as restocking it before the sold-out mark; a restocked menu is on sale exactly when its switch is on |
| `StoreMenu.ParseAllergens` | frontreact/src/components/Store/MenuManagement.tsx:374 | every parsed allergen is a non-empty trimmed piece without a comma; an absent or empty field gives no allergen |
| `StoreMenu.Pieces` | frontreact/src/components/Store/MenuManagement.tsx:374 | the comma-separated pieces of the field, trimmed, keep only non-empty allergens |
| `StoreMenu.PiecesOfJoin` | frontreact/src/components/Store/MenuManagement.tsx:374 | splitting allergens joined with commas, trimming and dropping empty pieces gives them back |
| `StoreMenu.AllergensRoundTrip` | frontreact/src/components/Store/MenuManagement.tsx:374 | allergens written back as a comma-separated field are parsed back unchanged |
| `StoreMenu.NewMenu` | frontreact/src/components/Store/MenuManagement.tsx:371-383 | the new menu's id is larger than every existing id; it is on sale with no sales and a sufficient stock level, and takes the form's name, category, price and parsed allergens |
| `StoreMenu.NewMenuIdMatchesSource` | frontreact/src/components/Store/MenuManagement.tsx:373 | the new id is what one plus the JavaScript maximum of the existing ids gives |
| `StoreMenu.AddKeepsIdsDistinct` | frontreact/src/components/Store/MenuManagement.tsx:371-385 | when the ids are distinct, they stay distinct after a menu is added |
| `StoreMenu.StoreMenu.constructor` | frontreact/src/components/Store/MenuManagement.tsx:238 | the board starts on the given non-empty menu list |
| `StoreMenu.StoreMenu.ToggleAvailability` | frontreact/src/components/Store/MenuManagement.tsx:318-327 | the list becomes the switched list and stays non-empty |
| `StoreMenu.StoreMenu.ConfirmSoldOut` | frontreact/src/components/Store/MenuManagement.tsx:329-342 | the list becomes the list with that menu sold out |
| `StoreMenu.StoreMenu.RestockMenu` | frontreact/src/components/Store/MenuManagement.tsx:344-351 | the list becomes the restocked list |
| `StoreMenu.StoreMenu.Add` | frontreact/src/components/Store/MenuManagement.tsx:365-385 | the new menu is appended after every existing menu, which are unchanged |
| `NoticeEducation.Viewed` | frontreact/src/components/Store/NoticeEducation.tsx:860-868 | opening a read notice changes nothing; opening an unread one marks every notice with its id read with the given time as read date and leaves the others unchanged |
| `NoticeEducation.ToggledImportant` | frontreact/src/components/Store/NoticeEducation.tsx:1134-1139 | the notices with that id have their important flag flipped; the others are unchanged |
| `NoticeEducation.ToggleTwice` | frontreact/src/components/Store/NoticeEducation.tsx:1134-1139 | marking the same notice important twice restores the list |
| `NoticeEducation.CountersOf` | frontreact/src/components/Store/NoticeEducation.tsx:1157-1160 | the total is the number of notices; unread, important and urgent never exceed it; unread is zero exactly when every notice is read |
| `NoticeEducation.UnreadZero` | frontreact/src/components/Store/NoticeEducation.tsx:1158 | the unread count is zero exactly when every notice is read |
| `NoticeEducation.ViewingLowersUnread` | frontreact/src/components/Store/NoticeEducation.tsx:860-868 | with distinct ids, opening an unread notice lowers the unread counter by exactly one and leaves the important and urgent counters as they were |
| `NoticeEducation.ViewingNeverAddsUnread` | frontreact/src/components/Store/NoticeEducation.tsx:860-868 | opening any notice never raises the unread counter |
| `NoticeEducation.ViewedUnreadBound` | frontreact/src/components/Store/NoticeEducation.tsx:861-867 | marking the notices of one id read leaves no more unread notices than before |
| `NoticeEducation.FilteredNotices` | frontreact/src/components/Store/NoticeEducation.tsx:1144-1154 | a notice is listed exactly when the search occurs, ignoring case, in its title, content or author, its type passes the type filter and its read state passes the read filter |
| `NoticeEducation.UnreadViewMatchesCounter` | frontreact/src/components/Store/NoticeEducation.tsx:1144-1160 | with no search and the 'unread' filter, the list is as long as the unread card says |
| `NoticeEducation.DownloadCellIsCount` | frontreact/src/components/Store/NoticeEducation.tsx:891 | the download count cell is always the count followed by 회, '0회' included |
| `NoticeEducation.EducationRow` | frontreact/src/components/Store/NoticeEducation.tsx:885-892 | the exported row has the six columns and none of them is empty |
| `NoticeEducation.EducationCsvLines` | frontreact/src/components/Store/NoticeEducation.tsx:894-897 | when no field holds a line break, the file has exactly two lines: the column names and the quoted values |
| `NoticeEducation.EducationFileName` | frontreact/src/components/Store/NoticeEducation.tsx:902 | the file name starts with 교육자료_ followed by the title and ends in .csv, with an underscore and the date between |
| `NoticeEducation.NoticeEducation.constructor` | frontreact/src/components/Store/NoticeEducation.tsx:718-719 | the inbox starts on the received notices with nothing selected |
| `NoticeEducation.NoticeEducation.ViewNotice` | frontreact/src/components/Store/NoticeEducation.tsx:860-871 | the list becomes the viewed list and the detail shows the notice as it was clicked |
| `NoticeEducation.NoticeEducation.MarkImportant` | frontreact/src/components/Store/NoticeEducation.tsx:1134-1140 | the list becomes the toggled list |
| `NoticeEducation.NoticeEducation.Counters` | frontreact/src/components/Store/NoticeEducation.tsx:1157-1160 | the cards show the counters of the current list |
| `HqInventory.Ids` | frontreact/src/components/HQ/InventoryManagement.tsx:483 | the ids of the materials, one per material in list order |
| `HqInventory.Merge` | frontreact/src/components/HQ/InventoryManagement.tsx:474-478 | an edited material keeps its id, its three stock figures and its status, and takes the form's name, code, unit price and, when given, expiry date |
| `HqInventory.Edited` | frontreact/src/components/HQ/InventoryManagement.tsx:473-479 | the list keeps its length and ids; the selected material is merged with the form and every other material is unchanged |
| `HqInventory.Deleted` | frontreact/src/components/HQ/InventoryManagement.tsx:461 | a material remains exactly when it was on the list and its id is not the deleted one |
| `HqInventory.NewIdAfterDeletingAll` | frontreact/src/components/HQ/InventoryManagement.tsx:483 | once the only material is deleted, the next registration's id as written is -Infinity |
| `HqInventory.NewMaterial` | frontreact/src/components/HQ/InventoryManagement.tsx:481-491 | the new material's id is larger than every existing id and equals one plus the JavaScript maximum when the list is not empty; it has no stock, status 'out', no weekly usage, no stores, today's restock date, and the form's name, code and unit price |
| `HqInventory.AddKeepsIdsDistinct` | frontreact/src/components/HQ/InventoryManagement.tsx:481-492 | registering a material keeps the ids distinct |
| `HqInventory.StatsOf` | frontreact/src/components/HQ/InventoryManagement.tsx:509-512 | the item count is the list's length, the short-of-stock count is the number of materials whose status is low, critical or out, the urgent count is at most the number of orders, and the stock value is not negative when no stock or price is |
| `HqInventory.ValueNonNegative` | frontreact/src/components/HQ/InventoryManagement.tsx:511 | with no negative stock or unit price the total stock value is not negative |
| `HqInventory.AddStats` | frontreact/src/components/HQ/InventoryManagement.tsx:481-492 | a newly registered material adds one to the short-of-stock count and nothing to the stock value |
| `HqInventory.DeleteStats` | frontreact/src/components/HQ/InventoryManagement.tsx:454-465 | with distinct ids, deleting a material removes exactly that entry, one item, and its stock value from the total |
| `HqInventory.EditStats` | frontreact/src/components/HQ/InventoryManagement.tsx:473-479 | editing a material changes the stock value only by the new unit price times its unchanged stock, and leaves the short-of-stock count as it was |
| `HqInventory.HqInventory.constructor` | frontreact/src/components/HQ/InventoryManagement.tsx:251-257 | the screen starts on the given materials and supplier orders in add mode |
| `HqInventory.HqInventory.OpenAdd` | frontreact/src/components/HQ/InventoryManagement.tsx:442-446 | the dialog opens in add mode with nothing selected |
| `HqInventory.HqInventory.OpenEdit` | frontreact/src/components/HQ/InventoryManagement.tsx:448-452 | the dialog opens in edit mode on the chosen material |
| `HqInventory.HqInventory.Submit` | frontreact/src/components/HQ/InventoryManagement.tsx:467-497 | in edit mode the list becomes the edited list; in add mode the new material is appended after the unchanged list |
| `HqInventory.HqInventory.Delete` | frontreact/src/components/HQ/InventoryManagement.tsx:454-465 | the list becomes the list without that id |
| `HqMenu.Ids` | frontreact/src/components/HQ/MenuManagement.tsx:335 | the ids of the menus, one per menu in list order |
| `HqMenu.Merge` | frontreact/src/components/HQ/MenuManagement.tsx:327 | an edited menu keeps its id, status, popularity and monthly sales, takes the form's name, price and cost, and keeps its picture when no new image was chosen |
| `HqMenu.Edited` | frontreact/src/components/HQ/MenuManagement.tsx:325-329 | the list keeps its length and ids; the menu being edited is merged with the form and every other menu is unchanged |
| `HqMenu.EditWithoutImageKeepsIt` | frontreact/src/components/HQ/MenuManagement.tsx:327 | an edit without a new image leaves every menu's picture as it was |
| `HqMenu.NewMenu` | frontreact/src/components/HQ/MenuManagement.tsx:334-340 | the new menu's id is larger than every existing id and equals one plus the JavaScript maximum when the list is not empty; it is 'preparing' with no popularity, no sales and the default picture, and takes the form's name, price and cost |
| `HqMenu.Deleted` | frontreact/src/components/HQ/MenuManagement.tsx:310 | a menu remains exactly when it was on the list and its id is not the deleted one |
| `HqMenu.TotalMargin` | frontreact/src/components/HQ/MenuManagement.tsx:359-360 | total revenue minus total cost is the sum over the menus of price minus cost times monthly sales |
| `HqMenu.MarginOfLast` | frontreact/src/components/HQ/MenuManagement.tsx:359-360 | one menu's margin is its revenue minus its cost |
| `HqMenu.AddKeepsTotals` | frontreact/src/components/HQ/MenuManagement.tsx:334-341 | a new menu has sold nothing, so registering it leaves total revenue and total cost unchanged |
| `HqMenu.DeleteLowersRevenue` | frontreact/src/components/HQ/MenuManagement.tsx:303-314 | with distinct ids, deleting a menu takes exactly its revenue out of the total |
| `HqMenu.TopSellingIndex` | frontreact/src/components/HQ/MenuManagement.tsx:362 | the chosen menu sold at least as much as every menu, and more than every menu before it, so ties go to the earliest |
| `HqMenu.TopSellingMenu` | frontreact/src/components/HQ/MenuManagement.tsx:362 | there is no top-selling menu exactly when the list is empty; otherwise it is on the list and no menu sold more |
| `HqMenu.AddCountsPreparing` | frontreact/src/components/HQ/MenuManagement.tsx:191-193 | a new menu adds one to the 'preparing' count and nothing to any other status count |
| `HqMenu.HqMenu.constructor` | frontreact/src/components/HQ/MenuManagement.tsx:184-186 | the catalogue starts on the given menus with nothing being edited |
| `HqMenu.HqMenu.OpenAdd` | frontreact/src/components/HQ/MenuManagement.tsx:293-296 | the dialog opens with nothing being edited |
| `HqMenu.HqMenu.OpenEdit` | frontreact/src/components/HQ/MenuManagement.tsx:298-301 | the dialog opens on the chosen menu |
| `HqMenu.HqMenu.Submit` | frontreact/src/components/HQ/MenuManagement.tsx:316-344 | while editing the list becomes the edited list; otherwise the new menu is appended after the unchanged list |
| `HqMenu.HqMenu.Delete` | frontreact/src/components/HQ/MenuManagement.tsx:303-314 | the list becomes the list without that id |
| `HqStores.Ids` | frontreact/src/components/HQ/StoreManagement.tsx:299 | the ids of the stores, one per store in list order |
| `HqStores.Merge` | frontreact/src/components/HQ/StoreManagement.tsx:291 | an edited store keeps its id and status, takes the form's name, owner and opening date and, when given, deposit, and its monthly revenue is reset to zero |
| `HqStores.Edited` | frontreact/src/components/HQ/StoreManagement.tsx:289-293 | the list keeps its length and ids; the store being edited is merged with the form and every other store is unchanged |
| `HqStores.NewStore` | frontreact/src/components/HQ/StoreManagement.tsx:297-302 | the new store's id is larger than every existing id and equals one plus the JavaScript maximum when the list is not empty; it is 'preparing' with no revenue and takes the form's name, owner and deposit |
| `HqStores.Deleted` | frontreact/src/components/HQ/StoreManagement.tsx:274 | a store remains exactly when it was on the list and its id is not the deleted one |
| `HqStores.ChangesKeepIdsDistinct` | frontreact/src/components/HQ/StoreManagement.tsx:274-303 | registering, editing and deleting a store each keep the ids distinct |
| `HqStores.DeleteKeepsIdsDistinct` | frontreact/src/components/HQ/StoreManagement.tsx:274 | deleting a store keeps the ids distinct |
| `HqStores.FilterCounts` | frontreact/src/components/HQ/StoreManagement.tsx:169-174 | one chip per status, each counting the stores with that status |
| `HqStores.CountsCoverStores` | frontreact/src/components/HQ/StoreManagement.tsx:169-174 | when every store has one of the four statuses the four chips add up to the number of stores |
| `HqStores.AddCountsPreparing` | frontreact/src/components/HQ/StoreManagement.tsx:297-303 | registering a store adds one to the 'preparing' chip and leaves the other chips as they were |
| `HqStores.HqStores.constructor` | frontreact/src/components/HQ/StoreManagement.tsx:163-165 | the register starts on the given stores with nothing being edited |
| `HqStores.HqStores.OpenAdd` | frontreact/src/components/HQ/StoreManagement.tsx:257-260 | the dialog opens with nothing being edited |
| `HqStores.HqStores.OpenEdit` | frontreact/src/components/HQ/StoreManagement.tsx:262-265 | the dialog opens on the chosen store |
| `HqStores.HqStores.Submit` | frontreact/src/components/HQ/StoreManagement.tsx:280-306 | while editing the list becomes the edited list; otherwise the new store is appended after the unchanged list |
| `HqStores.HqStores.Delete` | frontreact/src/components/HQ/StoreManagement.tsx:267-278 | the list becomes the list without that id |
| `HqStaff.Ids` | frontreact/src/components/HQ/StaffManagement.tsx:331 | the ids of the employees, one per employee in list order |
| `HqStaff.Avatar` | frontreact/src/components/HQ/StaffManagement.tsx:333 | the avatar is the first two characters of the name, or the whole name when shorter, each in upper case |
| `HqStaff.NewEmployeeAsWritten` | frontreact/src/components/HQ/StaffManagement.tsx:331 | the id as written is the list's length plus one |
| `HqStaff.Deleted` | frontreact/src/components/HQ/StaffManagement.tsx:365 | an employee remains exactly when they were on the list and their id is not the selected one |
| `HqStaff.LengthIdCollides` | frontreact/src/components/HQ/StaffManagement.tsx:329-338 | with employees 1 and 2, deleting 1 and then adding someone as written gives two employees with id 2 |
| `HqStaff.NewEmployee` | frontreact/src/components/HQ/StaffManagement.tsx:329-336 | the corrected new id is larger than every existing id; the new employee is 재직, has not logged in, has the avatar of their name, and takes the form's name, department and email |
| `HqStaff.AddKeepsIdsDistinct` | frontreact/src/components/HQ/StaffManagement.tsx:329-338 | with the corrected id, adding an employee keeps the ids distinct whatever was deleted before |
| `HqStaff.NewIdAgreesWithoutDeletes` | frontreact/src/components/HQ/StaffManagement.tsx:331 | on a list whose ids are exactly 1 to n, the corrected id is the n + 1 the code computes |
| `HqStaff.Merge` | frontreact/src/components/HQ/StaffManagement.tsx:351 | an edited employee keeps id, status, avatar and last login and takes the form's name, email, department and join date |
| `HqStaff.Updated` | frontreact/src/components/HQ/StaffManagement.tsx:349-353 | the list keeps its length and ids; the selected employee is merged with the form and everyone else is unchanged |
| `HqStaff.FilteredStaff` | frontreact/src/components/HQ/StaffManagement.tsx:372-380 | an employee is listed exactly when the search occurs, ignoring case, in the name, email or department and both filters are 'all' or equal to their department and status |
| `HqStaff.CountersOf` | frontreact/src/components/HQ/StaffManagement.tsx:383-385 | the total is the number of employees, and the 재직 and 휴직 counters together never exceed it |
| `HqStaff.StatusCountsDisjoint` | frontreact/src/components/HQ/StaffManagement.tsx:384-385 | nobody is counted both as working and on leave |
| `HqStaff.ActiveFilterMatchesCounter` | frontreact/src/components/HQ/StaffManagement.tsx:372-384 | with no search, all departments and the 재직 filter, the list is as long as the active counter |
| `HqStaff.AddCounters` | frontreact/src/components/HQ/StaffManagement.tsx:329-338 | adding an employee adds one to the total and to the active counter and leaves the on-leave counter unchanged |
| `HqStaff.HqStaff.constructor` | frontreact/src/components/HQ/StaffManagement.tsx:115-119 | the register starts on the given employees with nobody selected |
| `HqStaff.HqStaff.AddStaff` | frontreact/src/components/HQ/StaffManagement.tsx:329-341 | the new employee, with the corrected id, is appended after the unchanged list, and ids stay distinct |
| `HqStaff.HqStaff.Select` | frontreact/src/components/HQ/StaffManagement.tsx:343-346 | the chosen employee becomes the selected one |
| `HqStaff.HqStaff.UpdateStaff` | frontreact/src/components/HQ/StaffManagement.tsx:348-357 | the list becomes the updated list and the selection is cleared |
| `HqStaff.HqStaff.ConfirmDelete` | frontreact/src/components/HQ/StaffManagement.tsx:364-369 | the selected employee leaves the list and the selection is cleared |
| `HqNotices.Ids` | frontreact/src/components/HQ/NoticeManagement.tsx:309 | the ids of the notices, one per notice in list order |
| `HqNotices.PublishStatus` | frontreact/src/components/HQ/NoticeManagement.tsx:314 | a notice is 발송완료 exactly when its publish time is not after now, and 예약발송 exactly when it is later |
| `HqNotices.NewNoticeAsWritten` | frontreact/src/components/HQ/NoticeManagement.tsx:309 | the id as written is the list's length plus one |
| `HqNotices.Deleted` | frontreact/src/components/HQ/NoticeManagement.tsx:347 | a notice remains exactly when it was on the list and its id is not the selected one |
| `HqNotices.LengthIdCollides` | frontreact/src/components/HQ/NoticeManagement.tsx:307-320 | with notices 1 and 2, deleting 1 and then writing a notice as written gives two notices with id 2 |
| `HqNotices.NewNotice` | frontreact/src/components/HQ/NoticeManagement.tsx:307-318 | the corrected new id is larger than every existing id; the notice goes to all stores from the head office administrator, dated today, unread by any of 50 stores, without attachment, sent exactly when its publish time has come, with the form's title, content and publish date |
| `HqNotices.AddKeepsIdsDistinct` | frontreact/src/components/HQ/NoticeManagement.tsx:307-320 | with the corrected id, writing a notice keeps the ids distinct |
| `HqNotices.Merge` | frontreact/src/components/HQ/NoticeManagement.tsx:333 | an edited notice keeps its id, status, read count and store count and takes the form's title, content and publish date; the status is not recomputed |
| `HqNotices.Updated` | frontreact/src/components/HQ/NoticeManagement.tsx:331-335 | the list keeps its length and ids; the selected notice is merged with the form and every other notice is unchanged |
| `HqNotices.FilteredNotices` | frontreact/src/components/HQ/NoticeManagement.tsx:354-362 | a notice is listed exactly when the search occurs, ignoring case, in its title, content or author and both filters are 'all' or equal to its type and status |
| `HqNotices.AvgReadRate` | frontreact/src/components/HQ/NoticeManagement.tsx:368-369 | the average read rate is 0 with no notices, and between 0 and 100 when no notice was read by more stores than it was sent to |
| `HqNotices.RateSumBounds` | frontreact/src/components/HQ/NoticeManagement.tsx:369 | the sum of the read fractions lies between 0 and the number of notices |
| `HqNotices.RateAtMostOne` | frontreact/src/components/HQ/NoticeManagement.tsx:369 | one notice's read fraction lies between 0 and 1 |
| `HqNotices.AllReadIsHundred` | frontreact/src/components/HQ/NoticeManagement.tsx:368-369 | when every store has read every notice the average read rate is 100 |
| `HqNotices.AllReadSum` | frontreact/src/components/HQ/NoticeManagement.tsx:369 | when every notice was read by all its stores the fractions add up to the number of notices |
| `HqNotices.StatsOf` | frontreact/src/components/HQ/NoticeManagement.tsx:365-369 | the total is the number of notices, the urgent and scheduled counts never exceed it, and the rate is the average read rate |
| `HqNotices.AddScheduled` | frontreact/src/components/HQ/NoticeManagement.tsx:307-320 | a notice written for a later time adds one to the scheduled count and keeps every notice addressed |
| `HqNotices.HqNotices.constructor` | frontreact/src/components/HQ/NoticeManagement.tsx:126-130 | the list starts on the given notices with nothing selected |
| `HqNotices.HqNotices.AddNotice` | frontreact/src/components/HQ/NoticeManagement.tsx:307-323 | the new notice, with the corrected id, is appended after the unchanged list |
| `HqNotices.HqNotices.Select` | frontreact/src/components/HQ/NoticeManagement.tsx:325-328 | the chosen notice becomes the selected one |
| `HqNotices.HqNotices.UpdateNotice` | frontreact/src/components/HQ/NoticeManagement.tsx:330-339 | the list becomes the updated list and the selection is cleared |
| `HqNotices.HqNotices.ConfirmDelete` | frontreact/src/components/HQ/NoticeManagement.tsx:346-351 | the selected notice leaves the list and the selection is cleared |
| `HqNotices.HqNotices.Stats` | frontreact/src/components/HQ/NoticeManagement.tsx:365-369 | the cards show the statistics of the current list |
| `HqLogistics.OrderNumber` | frontreact/src/components/HQ/LogisticsManagement.tsx:458 | an order number starts with PO-2024- and has at least three digits after it |
| `HqLogistics.OrderNumberReadsBack` | frontreact/src/components/HQ/LogisticsManagement.tsx:458 | the part after PO-2024- is all digits and reads back as the sequence number |
| `HqLogistics.OrderNumberInjective` | frontreact/src/components/HQ/LogisticsManagement.tsx:458 | different sequence numbers give different order numbers |
| `HqLogistics.NewOrderAsWritten` | frontreact/src/components/HQ/LogisticsManagement.tsx:456-466 | as written, the new order's id and sequence number are both the number of orders plus one |
| `HqLogistics.DeletedOrders` | frontreact/src/components/HQ/LogisticsManagement.tsx:515 | an order remains exactly when it was on the list and its id is not the selected one |
| `HqLogistics.LengthNumberRepeats` | frontreact/src/components/HQ/LogisticsManagement.tsx:455-468 | with orders 1 and 2, deleting 1 and placing an order as written repeats both id 2 and order number PO-2024-002 |
| `HqLogistics.OrderIds` | frontreact/src/components/HQ/LogisticsManagement.tsx:457 | the ids of the orders, one per order in list order |
| `HqLogistics.NewOrder` | frontreact/src/components/HQ/LogisticsManagement.tsx:456-466 | the corrected new id is larger than every existing id and the order number is made from it; the order is 발주완료 with no items, no amount and no delivery date, approved by 관리자 and dated today, for the form's store, supplier and urgency |
| `HqLogistics.DistinctIdsGiveDistinctNumbers` | frontreact/src/components/HQ/LogisticsManagement.tsx:457-458 | when every order number is made from its id, distinct ids give distinct order numbers |
| `HqLogistics.NewOrderKeepsIdsDistinct` | frontreact/src/components/HQ/LogisticsManagement.tsx:455-468 | placing an order with the corrected id keeps the ids distinct and every number made from its id |
| `HqLogistics.NewOrderKeepsNumbersDistinct` | frontreact/src/components/HQ/LogisticsManagement.tsx:455-468 | placing an order with the corrected id keeps the order numbers distinct |
| `HqLogistics.SupplierIds` | frontreact/src/components/HQ/LogisticsManagement.tsx:475 | the ids of the suppliers, one per supplier in list order |
| `HqLogistics.NewSupplierAsWritten` | frontreact/src/components/HQ/LogisticsManagement.tsx:475 | as written, the new supplier's id is the number of suppliers plus one |
| `HqLogistics.NewSupplier` | frontreact/src/components/HQ/LogisticsManagement.tsx:474-482 | the corrected new id is larger than every existing id; the supplier is unrated, has no orders and no amount, is 활성, contracted today, with the form's name and payment terms |
| `HqLogistics.DeletedSuppliers` | frontreact/src/components/HQ/LogisticsManagement.tsx:518 | a supplier remains exactly when it was on the list and its id is not the selected one |
| `HqLogistics.SupplierIdCollides` | frontreact/src/components/HQ/LogisticsManagement.tsx:473-484 | with suppliers 1 and 2, deleting 1 and registering a supplier as written gives two suppliers with id 2 |
| `HqLogistics.AddSupplierKeepsIdsDistinct` | frontreact/src/components/HQ/LogisticsManagement.tsx:473-484 | registering a supplier with the corrected id keeps the ids distinct whatever was deleted before |
| `HqLogistics.FilteredOrders` | frontreact/src/components/HQ/LogisticsManagement.tsx:526-532 | an order is listed exactly when the search occurs, ignoring case, in its order number, store or supplier and the status filter is 'all' or its status |
| `HqLogistics.StatsOf` | frontreact/src/components/HQ/LogisticsManagement.tsx:535-538 | the order count is the list's length, the pending count never exceeds it, the total is the sum of the amounts, and the average times the count is the total, or 0 with no orders |
| `HqLogistics.AddOrderStats` | frontreact/src/components/HQ/LogisticsManagement.tsx:455-468 | a new order adds one pending order and nothing to the total amount |
| `HqLogistics.HqLogistics.constructor` | frontreact/src/components/HQ/LogisticsManagement.tsx:158-167 | the screen starts on the given orders and suppliers, on the orders tab, with nothing selected |
| `HqLogistics.HqLogistics.AddOrder` | frontreact/src/components/HQ/LogisticsManagement.tsx:455-471 | the new order, with the corrected id, is appended after the unchanged list |
| `HqLogistics.HqLogistics.AddSupplier` | frontreact/src/components/HQ/LogisticsManagement.tsx:473-487 | the new supplier, with the corrected id, is appended after the unchanged list |
| `HqLogistics.HqLogistics.AskDelete` | frontreact/src/components/HQ/LogisticsManagement.tsx:501-511 | the row becomes the selected one and its tab the active tab |
| `HqLogistics.HqLogistics.ConfirmDelete` | frontreact/src/components/HQ/LogisticsManagement.tsx:513-523 | on the orders tab only the orders list loses the selected id, on the suppliers tab only the suppliers list; the selection is cleared |
| `DataTable.Objects` | frontreact/src/components/Common/DataTable.tsx:85 | a row is kept exactly when it is an object; nothing else is added |
| `DataTable.Searched` | frontreact/src/components/Common/DataTable.tsx:89-102 | with the search shown and a non-empty term, a row is kept exactly when some non-null field (a number, a string, a boolean as 'true'/'false', an array of strings as its comma-joined text), as text and ignoring case, contains the term; otherwise every row is kept |
| `DataTable.OnTab` | frontreact/src/components/Common/DataTable.tsx:105-111 | with the 'all' tab every row is kept; otherwise a row is kept exactly when its status field equals the tab's value |
| `DataTable.FilteredData` | frontreact/src/components/Common/DataTable.tsx:83-115 | a row is listed exactly when it is an object, passes the search and is on the active tab; nothing else is listed |
| `DataTable.NoSearchKeepsAllObjects` | frontreact/src/components/Common/DataTable.tsx:89 | with the search hidden or empty and the 'all' tab, every object row is listed, in order |
| `DataTable.ListFieldMatches` | frontreact/src/components/Common/DataTable.tsx:92-99 | a row with an array field is found by a term that any one of the array's strings contains |
| `DataTable.JoinAround` | frontreact/src/components/Common/DataTable.tsx:96 | each string of an array sits whole inside the array's comma-joined text |
| `DataTable.ValueLeqTotal` | frontreact/src/components/Common/DataTable.tsx:122-125 | any two column values are ordered one way or the other by the model's order (JavaScript's `<` within a kind) |
| `DataTable.ValueLeqTransitive` | frontreact/src/components/Common/DataTable.tsx:122-125 | the order of column values is transitive |
| `DataTable.ColumnOrderIsTotal` | frontreact/src/components/Common/DataTable.tsx:118-129 | the comparator of a column in either direction is a total preorder |
| `DataTable.SortedData` | frontreact/src/components/Common/DataTable.tsx:118-129 | the sorted rows are a permutation of the rows; without a sort column they are unchanged, and with one they are in ascending or descending order of that column |
| `DataTable.Page` | frontreact/src/components/Common/DataTable.tsx:132-136 | a page holds at most ten rows, the rows from (page - 1) * 10 on in order, as many as remain up to ten |
| `DataTable.TotalPages` | frontreact/src/components/Common/DataTable.tsx:138 | the page count is zero exactly when there are no rows, and otherwise the least count whose pages of ten hold every row |
| `DataTable.FirstPagesArePrefix` | frontreact/src/components/Common/DataTable.tsx:132-136 | the first k pages laid end to end are the first 10 * k rows, or all of them |
| `DataTable.PagesTileRows` | frontreact/src/components/Common/DataTable.tsx:132-138 | the pages from 1 to the page count laid end to end give back every row exactly once, in order |
| `DataTable.SortClicked` | frontreact/src/components/Common/DataTable.tsx:140-147 | a click sorts by the clicked column; on the sorted column it flips the direction, on another it starts ascending |
| `DataTable.SortTwiceRestores` | frontreact/src/components/Common/DataTable.tsx:140-147 | two clicks on the sorted column restore its direction |
| `DataTable.DataTable.constructor` | frontreact/src/components/Common/DataTable.tsx:65-69 | the table starts with no search, no sort column, ascending, the 'all' tab and page 1 |
| `DataTable.DataTable.Search` | frontreact/src/components/Common/DataTable.tsx:195 | the search term takes the typed value; the page is left as it was |
| `DataTable.DataTable.SelectFilter` | frontreact/src/components/Common/DataTable.tsx:204-216 | the active tab takes the chosen value |
| `DataTable.DataTable.Sort` | frontreact/src/components/Common/DataTable.tsx:140-147 | the sort state becomes the clicked state |
| `DataTable.DataTable.PreviousPage` | frontreact/src/components/Common/DataTable.tsx:330-334 | on page 1 nothing changes; otherwise the page goes back by one |
| `DataTable.DataTable.NextPage` | frontreact/src/components/Common/DataTable.tsx:353-357 | on the last page nothing changes; otherwise the page goes on by one |
| `DataTable.DataTable.GoToPage` | frontreact/src/components/Common/DataTable.tsx:339-346 | the page becomes the chosen page number |
| `FormModal.ValidFields` | frontreact/src/components/Common/FormModal.tsx:54-70 | a field description is used exactly when it has a name, a label and a type; nothing else is added |
| `FormModal.CompleteFieldsAllKept` | frontreact/src/components/Common/FormModal.tsx:54-70 | when every description is complete, every one is used, in order |
| `FormModal.FieldError` | frontreact/src/components/Common/FormModal.tsx:118-131 | a required field whose value is falsy or white space only gets the required message; no error means it is not such a field; any other error is the custom check's non-empty message for a truthy value; a field neither required nor checked, or left empty, has no error |
| `FormModal.ErrorsOf` | frontreact/src/components/Common/FormModal.tsx:112-134 | every key of the error map is the name of a field that fails its check, with a non-empty message |
| `FormModal.ErrorsOfMeaning` | frontreact/src/components/Common/FormModal.tsx:112-134 | a name has an error exactly when some named field of that name fails its check |
| `FormModal.ValidIffAllPass` | frontreact/src/components/Common/FormModal.tsx:134-136 | the error map is empty exactly when every named field passes its check |
| `FormModal.ValidateFields` | frontreact/src/components/Common/FormModal.tsx:112-137 | the loop's error map is the error map of the fields, and the form is valid exactly when every named field passes |
| `FormModal.OpeningData` | frontreact/src/components/Common/FormModal.tsx:74-75 | opening starts from initialData when there is one, otherwise from an empty form |
| `FormModal.FormModal.constructor` | frontreact/src/components/Common/FormModal.tsx:50-51 | the dialog starts closed with no data, no errors and nothing submitted |
| `FormModal.FormModal.Open` | frontreact/src/components/Common/FormModal.tsx:72-78 | opening sets the data to the opening data and clears every error |
| `FormModal.FormModal.Close` | frontreact/src/components/Common/FormModal.tsx:78-82 | closing empties the data and the errors |
| `FormModal.FormModal.InitialDataChanged` | frontreact/src/components/Common/FormModal.tsx:90-95 | new initial data while open is spread over what was typed |
| `FormModal.FormModal.Change` | frontreact/src/components/Common/FormModal.tsx:97-105 | only the typed key's value changes, and only that key's error is blanked when it had one |
| `FormModal.FormModal.Submit` | frontreact/src/components/Common/FormModal.tsx:139-145 | the errors become those of the usable fields; the form is handed to onSubmit exactly when there is no error, and otherwise nothing is submitted |
| `Register.Set` | frontreact/src/components/Common/Register.tsx:51 | typing into a field changes that field to the typed text and no other field |
| `Register.EmailExamples` | frontreact/src/components/Common/Register.tsx:63 | a@b.c is a well-formed address; a@b, @b.c, a@.c and a@b. are not |
| `Register.EmailHasOneAt` | frontreact/src/components/Common/Register.tsx:63 | a well-formed address has exactly one @ and no white space |
| `Register.Record` | frontreact/src/components/Common/Register.tsx:62-92 | a failed rule records its message under its key; a passed rule records nothing |
| `Register.ErrorsOver` | frontreact/src/components/Common/Register.tsx:58-96 | the error map over some keys holds exactly the keys among them whose rule fails, each with its rule's message |
| `Register.Errors` | frontreact/src/components/Common/Register.tsx:58-96 | email fails exactly when it is not a well-formed address, password exactly when shorter than 6, the confirmation exactly when empty or different from the password, and every other field exactly when the account type demands it and it is empty; each failing key carries its rule's message |
| `Register.OtherGroupUnchecked` | frontreact/src/components/Common/Register.tsx:81-92 | a head office sign-up never checks the store fields, and a store sign-up never checks the office fields |
| `Register.ValidMeaning` | frontreact/src/components/Common/Register.tsx:95 | the form passes exactly when every rule holds |
| `Register.FailedRuleBreaks` | frontreact/src/components/Common/Register.tsx:58-96 | any key in the error map means some rule does not hold |
| `Register.ValidRulesHold` | frontreact/src/components/Common/Register.tsx:95 | a form that passes satisfies every rule |
| `Register.ValidCommonRules` | frontreact/src/components/Common/Register.tsx:62-78 | a form that passes has a well-formed email, a password of at least 6 characters confirmed exactly, a name and a phone number |
| `Register.ValidOfficeRules` | frontreact/src/components/Common/Register.tsx:81-84 | a head office form that passes has an office name and a business number |
| `Register.ValidStoreRules` | frontreact/src/components/Common/Register.tsx:87-92 | a store form that passes has a store name, an address, a region and an owner name |
| `Register.ToNumberOrNull` | frontreact/src/components/Common/Register.tsx:99-104 | as written, no digits give null, otherwise the number the digits spell |
| `Register.LeadingZeroLost` | frontreact/src/components/Common/Register.tsx:99-104 | as written, 010 and 10 are sent as the same number 10, whose text is not the digits typed |
| `Register.DigitsOrNull` | frontreact/src/components/Common/Register.tsx:99-104 | corrected: no digits give null, otherwise exactly the digits typed, in order, leading zeros included |
| `Register.DigitsRoundTrip` | frontreact/src/components/Common/Register.tsx:99-104 | a number typed as bare digits is sent unchanged, and the value it spells is what the code as written computes |
| `Register.PayloadOf` | frontreact/src/components/Common/Register.tsx:111-122 | corrected: the body carries the name, email and password and the phone digits as text (`Register.DigitsOrNull`, where the code sends `Number(...)`); the store fields are set exactly for a store sign-up and the office fields only for a head office one, the others null |
| `Register.Register.constructor` | frontreact/src/components/Common/Register.tsx:28-48 | the screen starts on a store sign-up with every field empty, no errors and nothing sent |
| `Register.Register.SelectType` | frontreact/src/components/Common/Register.tsx:171-183 | the account type takes the chosen value |
| `Register.Register.InputChange` | frontreact/src/components/Common/Register.tsx:50-56 | only the typed field changes, and only its error is blanked when it had one |
| `Register.Register.Submit` | frontreact/src/components/Common/Register.tsx:106-125 | corrected (phone digits sent as text, as in `Register.PayloadOf`): the errors become the form's error map; the body is posted exactly when the form passes, and otherwise nothing is sent |
| `Layout.AutoExpand` | frontreact/src/components/Common/Layout.tsx:109-121 | the groups expanded at first are some of the menu's entries, at most one per entry |
| `Layout.AutoExpandMeaning` | frontreact/src/components/Common/Layout.tsx:114-118 | a group is expanded at first exactly when it is a menu entry one of whose sub-entries is the current page |
| `Layout.InitialExpanded` | frontreact/src/components/Common/Layout.tsx:109-121 | the initialiser's loop gives exactly the groups that hold the current page, in menu order |
| `Layout.Toggle` | frontreact/src/components/Common/Layout.tsx:125-131 | a toggled group that was expanded is no longer listed and everything else stays; one that was not is added to what was there |
| `Layout.ToggleKeepsNoDuplicates` | frontreact/src/components/Common/Layout.tsx:125-131 | toggling never lists a group twice |
| `Layout.ToggleTwice` | frontreact/src/components/Common/Layout.tsx:125-131 | toggling a group twice restores the set of expanded groups, and the very list when the group was collapsed |
| `Layout.FindLeaf` | frontreact/src/components/Common/Layout.tsx:262 | no sub-entry is found exactly when none has the page's id; a found label belongs to a sub-entry with that id |
| `Layout.FindTop` | frontreact/src/components/Common/Layout.tsx:256-257 | no entry is found exactly when none has the page's id; a found label belongs to an entry with that id |
| `Layout.FindInGroups` | frontreact/src/components/Common/Layout.tsx:260-265 | nothing is found exactly when no group holds the page; a found label comes from a group holding it |
| `Layout.Title` | frontreact/src/components/Common/Layout.tsx:254-268 | the header shows the label of the top-level entry with the page's id, otherwise the first sub-entry's label, and 대시보드 when no entry is active for the page |
| `Layout.HeaderTitle` | frontreact/src/components/Common/Layout.tsx:254-268 | the header's find and loop compute the title |
| `Layout.EveryPageHasItsTitle` | frontreact/src/components/Common/Layout.tsx:39-105 | every sidebar entry of either menu gives its own label as the header of its page |
| `Layout.Layout.constructor` | frontreact/src/components/Common/Layout.tsx:107-121 | the shell starts with the sidebar open and the groups holding the current page expanded |
| `Layout.Layout.Click` | frontreact/src/components/Common/Layout.tsx:163-169 | a click on a group toggles it and navigates nowhere; a click on a plain entry navigates to its page and leaves the groups alone |
| `Layout.Layout.ClickLeaf` | frontreact/src/components/Common/Layout.tsx:196 | a click on a sub-entry navigates to its page |
| `Layout.Layout.ToggleSidebar` | frontreact/src/components/Common/Layout.tsx:248 | the sidebar switches between open and collapsed |
| `Layout.Layout.ShowPage` | frontreact/src/components/Common/Layout.tsx:107-109 | a new current page from the parent changes only the page: the expanded groups, set up once by the state initialiser, and the sidebar stay as they were, so a page inside a closed group does not open it |
| `Layout.InitialHasNoDuplicates` | frontreact/src/components/Common/Layout.tsx:39-121 | in either menu the groups expanded at first are listed once each |
| `Layout.AutoExpandDistinct` | frontreact/src/components/Common/Layout.tsx:114-118 | when the entries have distinct ids the groups expanded at first are listed once each |
| `App.RenderContent` | frontreact/src/App.tsx:77-176 | the dashboard page shows the dashboard of the account's kind; a page in the account's table shows its screen; every other page, and only those, shows the placeholder naming the page and the account kind |
| `App.StoreAliases` | frontreact/src/App.tsx:116-141 | for a store, orders and order-pos, inventory and inventory-status, staff and staff-list each show the same screen |
| `App.StorePageForHqIsPlaceholder` | frontreact/src/App.tsx:90-160 | a store page asked for by head office, and a head office page asked for by a store, show the placeholder |
| `App.SidebarPagesRouted` | frontreact/src/App.tsx:77-176 | every page the account's sidebar can ask for, plain entries and sub-entries alike, has a screen of its own rather than the placeholder |
| `App.ViewOf` | frontreact/src/App.tsx:178-205 | signed out, the sign-up screen shows exactly when it was asked for and the login screen otherwise; signed in, the shell shows the current page's content |
| `App.App.constructor` | frontreact/src/App.tsx:42-45 | the application starts signed out, sign-up closed, as head office, on the dashboard |
| `App.App.Login` | frontreact/src/App.tsx:195-198 | signing in keeps the dashboard page and shows the dashboard of the chosen account kind |
| `App.App.OpenRegister` | frontreact/src/App.tsx:200 | the login screen's link shows the sign-up screen |
| `App.App.LeaveRegister` | frontreact/src/App.tsx:183-187 | finishing or abandoning sign-up shows the login screen again |
| `App.App.PageChange` | frontreact/src/App.tsx:73-75 | the current page becomes the chosen page and the shell shows its content |
| `App.App.Logout` | frontreact/src/App.tsx:65-71 | signing out returns to the login screen as head office on the dashboard with sign-up closed |
| `Common.Upper` | frontreact/src/components/HQ/StaffManagement.tsx:333 | upper-casing keeps the length and upper-cases every character on its own |
| `Common.CaseRoundTrip` | frontreact/src/components/HQ/StaffManagement.tsx:333 | upper-casing is idempotent, and upper- and lower-casing undo each other on letters of the other case |
| `Common.EmptyTermMatches` | frontreact/src/components/Store/StaffList.tsx:90-92 | an empty search term matches every field |
| `Common.TrimStart` | frontreact/src/components/Common/FormModal.tsx:124 | the result is a suffix of the text starting with a character that is not white space, and what was cut is white space only |
| `Common.TrimEnd` | frontreact/src/components/Common/FormModal.tsx:124 | the result is a prefix of the text ending with a character that is not white space, and what was cut is white space only |
| `Common.Trim` | frontreact/src/components/Store/MenuManagement.tsx:374 | the trimmed text has no white space at either end, holds only characters of the text, and an already trimmed text is unchanged |
| `Common.TrimEmptyIffAllSpace` | frontreact/src/components/Common/FormModal.tsx:124 | trimming gives the empty text exactly when the text is white space only |
| `Common.Split` | frontreact/src/components/Store/MenuManagement.tsx:374 | splitting gives at least one piece and no piece holds the separator |
| `Common.JoinSplit` | frontreact/src/components/Store/MenuManagement.tsx:374 | joining the pieces of a split with the same separator gives the text back |
| `Common.SplitJoin` | frontreact/src/components/Store/StaffList.tsx:200-203 | joining pieces free of the separator and splitting again gives the pieces back |
| `Common.CsvLineSingle` | frontreact/src/components/Store/StaffList.tsx:202 | a row whose cells hold no line break gives a CSV line without one |
| `Common.CsvReadsBack` | frontreact/src/components/Store/StaffList.tsx:200-203 | when no header or cell holds a line break, splitting the CSV text at line breaks gives the header line and then one line per row |
| `Common.NatToString` | frontreact/src/components/Store/StaffList.tsx:159 | the decimal text of a number is non-empty, all digits, and starts with 0 only when it is 0 |
| `Common.DigitsValueOfNatToString` | frontreact/src/components/Store/StaffList.tsx:159 | reading back the decimal text of a number gives the number |
| `Common.DigitsValueLeadingZeros` | frontreact/src/components/HQ/LogisticsManagement.tsx:458 | leading zeros do not change the value of a digit string |
| `Common.PadStart` | frontreact/src/components/HQ/LogisticsManagement.tsx:458 | the padded text is the text preceded by the padding character up to the width, and the text itself when at least that wide |
| `Common.PaddedReadsBack` | frontreact/src/components/HQ/LogisticsManagement.tsx:458 | a number padded with zeros to any width is all digits and reads back as the number |
| `Common.LeadingDigits` | frontreact/src/components/Store/OrderSystem.tsx:351 | the longest prefix of digits: all digits, a prefix of the text, and followed by no digit |
| `Common.ParseLeadingInt` | frontreact/src/components/Store/OrderSystem.tsx:351 | parsing gives NaN exactly when the text is empty or does not start with a digit |
| `Common.DigitsOf` | frontreact/src/components/Common/Register.tsx:100 | the kept text is all digits and no longer than the text |
| `Common.DigitsOfMembers` | frontreact/src/components/Common/Register.tsx:100 | the kept text holds exactly the digit characters of the text |
| `Common.DigitsOfDigits` | frontreact/src/components/Common/Register.tsx:100 | removing the non-digits of a digit string changes nothing |
| `Common.LastThree` | frontreact/src/components/Store/OrderSystemNew.tsx:248 | the result is the end of the text: its last three characters, or all of a shorter text |
| `Common.LastDigit` | frontreact/src/components/Store/OrderSystemNew.tsx:248 | the last character of a number's text is its units digit |
| `Common.LastThreeDigits` | frontreact/src/components/Store/OrderSystemNew.tsx:248 | from 100 on, the last three characters of a number's text are its hundreds, tens and units digits |
| `Common.LastThreeRepeats` | frontreact/src/components/Store/OrderSystemNew.tsx:248 | two numbers 1000 apart end in the same three characters, so such codes repeat |
| `Common.DateStamp` | frontreact/src/components/Store/InventoryManagement.tsx:865 | the date part of an order number is all digits and at least five characters long |
| `Common.GroupThousands` | frontreact/src/components/Store/InventoryOrders.tsx:153 | the grouped text is non-empty and holds only digits and commas |
| `Common.GroupThousandsReadsBack` | frontreact/src/components/Store/InventoryOrders.tsx:153 | dropping the commas of the grouped text reads back the number |
| `Common.Count` | frontreact/src/components/Store/StaffList.tsx:526 | a count never exceeds the list's length |
| `Common.Filter` | frontreact/src/components/Store/StaffList.tsx:89 | the filtered list is as long as the count, holds only elements of the list that pass, holds every element that passes, and is a sub-multiset of the list |
| `Common.FilterMembers` | frontreact/src/components/Store/StaffList.tsx:89 | an element is in the filtered list exactly when it is in the list and passes |
| `Common.FirstIndex` | frontreact/src/components/Store/OrderSystem.tsx:274 | the found position holds an element that passes and none before it does; nothing is found exactly when no element passes |
| `Common.MaxOf` | frontreact/src/components/HQ/InventoryManagement.tsx:483 | the maximum of a non-empty list is one of its elements and no element exceeds it |
| `Common.NextId` | frontreact/src/components/HQ/InventoryManagement.tsx:483 | the new id is larger than every id, is 1 for no ids, and is one more than some id otherwise |
| `Common.NextIdMatchesSource` | frontreact/src/components/HQ/InventoryManagement.tsx:483 | on a non-empty list the new id is what one plus the JavaScript maximum gives |
| `Common.SortBy` | frontreact/src/components/Common/DataTable.tsx:121-128 | for a total preorder, the sorted list is in order and is a permutation of the list |

## Left out

- JPA and QueryDSL persistence, the exception mapping of Spring and the internals of `HttpSession`: the table is a sequence of rows, the session a map of attributes, and ids come from a counter.
- MemberService.SaveRequest: a body whose key names no row is inserted under a newly generated key. That is what Hibernate's merge does for a generated key it cannot find; other JPA providers may instead reject such an entity, which is not modelled.
- The member controller in `MemberRestController.java` lets the service's exceptions propagate without wrapping them in a response envelope; the model follows that code, and an error result stands for the exception.
- `OrderContext.tsx` is not part of this model: what `addOrder` does with an order is not known here, so `OrderSystem.OrderSystem` keeps the orders it hands over in `contextOrders`, and `DailyClosing` takes the cash and card totals the context reports as parameters. The payment buttons pass only the three labels `OrderSystem.PaymentKey` names.
- `localStorage`: its saved text is a parameter or a field of the screen state, and JSON parsing is taken to give back what was stored.
- Clock ticks (`setInterval` updating the shown time), `setTimeout` delays, toasts, Blob and CSV downloads, printed HTML and PDF reports, and the network calls of `api.post`: they change nothing the model states. The storage polls that do change state are methods called whenever their timer or listener fires: `OrderList.OrderList.Reload`, `KitchenDisplay.KitchenDisplay.Refresh` and `DailyClosing.DailyClosing.RefreshPayments`.
- Sample data beyond what a finding needs, presentation-only dashboards and charts, icons, class names and rendering.
- Floating point: percentages, averages and ratios are rationals (`real`); `toFixed` and `toLocaleString` are modelled only on integers.
- Case folding is ASCII only, and `localeCompare` is lexicographic order on characters.
- Date parsing and formatting: `Date.now()`, `new Date()` and today's date are parameters; `Math.random` is a parameter.
- Numbers typed into forms are taken as integers.
- The browser's `confirm()` dialog is taken as already answered yes.
- DataTable: JavaScript's `<` gives no order between values of different kinds (null compares as 0, a number against a non-numeric string is false both ways), so a mixed column's sorted order depends on the browser's sort. The model uses its own total order instead: null, then booleans, numbers, strings and arrays, each kind ordered as `<` orders it. Array fields hold strings only; arrays of other values are not modelled.
- DailyClosing.DailyClosing.SetVoucher: requires one of the five voucher kinds, the only keys the screen's inputs pass (DailyClosing.tsx lines 347-357); the handler itself would add any other key, which the screen's total would then count.
- FormModal: the `onChange` callback passed by the parent is not modelled; the form's own state is.
- App: `handleLogin` and `handleRegister` are defined in `App.tsx` but never used.
- HQ StaffManagement: the count of employees who joined this month depends on the current date and is not modelled.
- HQ LogisticsManagement: `handleEditOrder` and `handleEditSupplier` only select the row and tab and open an edit dialog that is never rendered; `HqLogistics.AskDelete` models the same state change.
- HqMenu.NewMenu: an emptied list gives the new menu id 1, where the code as written gives -Infinity (the same defect as the third finding).
- HqStores.NewStore: an emptied list gives the new store id 1, where the code as written gives -Infinity (the same defect as the third finding).
- StoreMenu.StoreMenu.constructor: requires a non-empty menu list, since the board never deletes menus.
- HqNotices.AvgReadRate: requires every notice to be sent to at least one store, since the code divides by that number and every notice it creates has 50.
- HqNotices.StatsOf: requires every notice to be sent to at least one store, for the same reason.
- HqStaff.HqStaff.constructor: requires distinct employee ids.
- HqNotices.HqNotices.constructor: requires distinct notice ids, each sent to at least one store.
- Common.GroupThousands: its own ensures states only that the text is digits and commas; the round trip is stated by `Common.GroupThousandsReadsBack`.
- Common.SortBy: states that the result is ordered and a permutation; that equal elements keep their relative order, as `Array.prototype.sort` guarantees, is not stated.
- Common.DateStamp: states only that the stamp is digits and at least five long.
- Common.Count: states only that the count is at most the length; its relation to filtering is stated by the filter lemmas.

## Findings

| source | as written | input that shows it | evidently intended | confidence | as-written member | corrected member |
|---|---|---|---|---|---|---|
| frontreact/src/components/Store/InventoryManagement.tsx:864 | the cart's order id is `Math.max` of the ids with the leading 'PO-' parsed as numbers | any order list starting with the sample 'PO-001': the id is NaN, and stays NaN for every later order | one more than the largest numeric part of the existing ids | not executed | `StoreInventory.CartOrderIdIsNaN` | `StoreInventory.CartOrderId` |
| frontreact/src/components/Store/InventoryOrders.tsx:467-476 | the export's status text has no case for 'confirmed' | an approved order: the badge shows '승인됨' but the export writes '알수없음' | approved orders exported as '승인됨' | not executed | `InventoryOrders.ConfirmedExportsUnknown` | `InventoryOrders.StatusText` |
| frontreact/src/components/HQ/InventoryManagement.tsx:483 | the new id is `Math.max(...ids) + 1` | delete every material, then register one: its id is -Infinity | id 1 for an empty list | not executed | `HqInventory.NewIdAfterDeletingAll` | `HqInventory.NewMaterial` |
| frontreact/src/components/HQ/StaffManagement.tsx:331 | the new id is the list's length plus one | employees 1 and 2, delete 1, add one: two employees with id 2 | an id no employee has | not executed | `HqStaff.LengthIdCollides` | `HqStaff.NewEmployee` |
| frontreact/src/components/HQ/NoticeManagement.tsx:309 | the new id is the list's length plus one | notices 1 and 2, delete 1, write one: two notices with id 2 | an id no notice has | not executed | `HqNotices.LengthIdCollides` | `HqNotices.NewNotice` |
| frontreact/src/components/HQ/LogisticsManagement.tsx:456-466 | the new order's id and number come from the list's length plus one | orders 1 and 2, delete 1, place one: two orders with id 2 and number PO-2024-002 | an id and number no order has | not executed | `HqLogistics.LengthNumberRepeats` | `HqLogistics.NewOrder` |
| frontreact/src/components/HQ/LogisticsManagement.tsx:474-482 | the new supplier id is the list's length plus one | suppliers 1 and 2, delete 1, register one: two suppliers with id 2 | an id no supplier has | not executed | `HqLogistics.SupplierIdCollides` | `HqLogistics.NewSupplier` |
| frontreact/src/components/Store/InventoryManagement.tsx:873-875 | the submitted cart order stores its sum under `totalAmount` and its date under `requestDate`, while the order table (316, 338-343) and the other orders use `total` and `orderDate` | any submitted cart: the table shows ₩0 and an invalid order date for it | the sum as `total` and today as `orderDate` | not executed | `StoreInventory.CartOrderTotalLost` | `StoreInventory.CartOrder` |
| frontreact/src/components/Common/Register.tsx:99-104 | the phone number is sent as a number | '010' is sent as 10, so the server, which keeps phone numbers as text, stores '10' | the typed digits sent as text | not executed | `Register.LeadingZeroLost` | `Register.DigitsOrNull` |
| frontreact/src/components/Store/OrderSystem.tsx:629 | the cart's "+" calls addToCart with the cart line, which has no `available` field, so the sold-out check refuses it | any cart line: "+" shows '품절된 상품입니다.' and the quantity stays | one more unit of that line | not executed | `PosCart.PlusAsWrittenRefused` | `PosCart.PlusOne` |
| frontreact/src/components/Store/OrderSystemNew.tsx:377 | a "recently ordered" card calls addToCart with the tally entry, which has no `available` field, so the sold-out check refuses it | any card, e.g. 치킨버거세트 from order #001: nothing is added | the item added when the menu sells it | not executed | `PosCart.RecentCardAsWrittenRefused` | `PosCart.EntryAsMenuItem` |
