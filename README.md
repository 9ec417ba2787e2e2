# Inventory and billing: stock, order forms, sessions and form rules

This project models the core of a small inventory and billing application in Dafny. It covers:

- the order controller, which keeps item stock consistent as sales orders are created, edited and deleted;
- the browser forms that build sales and purchase orders line by line;
- the refresh-token session of the auth controller;
- the field rules of the signup, login and item forms, and the item list's filter and paging controls.

Each part comes with proofs of what it promises.

- `OrderController` (order_controller.dfy) models stock as a map from item id to stock.
  - An id missing from the map is an item the database does not find.
  - Each handler walks the lines one at a time and saves as it goes, with no rollback. So the specification functions (`Draw`, `Adjust`, `Restock`, `RestockDropped`, `Reconcile`) return the stock reached together with where and why the walk stopped.
  - The class `OrderStore` holds the stock and the orders. Its handler methods run the loops and are proved equal to those functions.
  - `OrderProofs` (order_proofs.dfy) proves what the handlers achieve: each item's exact net change, non-negativity, and that delete undoes create.
- `CreateOrderPage` (create_order.dfy) models the sales-order form.
  - The line arithmetic, totals, removal by id and the submit check are pure functions.
  - The form's state lives in the class `OrderForm`.
- `CreatePurchasePage` (create_purchase.dfy) models the purchase-order form the same way.
- `AuthController` (auth_controller.dfy) is a state machine over each user's stored refresh token.
  - Signing is a serial counter.
  - Verifying a token means it was signed with the refresh secret.
  - Password hashing is an injective digest.
  - The class `AuthStore` runs the handlers over mutable fields.
- `Text` (text.dfy) models the JavaScript string operations the forms use: `trim`, the unanchored `\S+@\S+\.\S+` test, and `join`/`split`.
  - `Credentials` (credentials.dfy) states the shared field rules in those terms.
  - `SignupPage`, `LoginPage` and `ItemsPage` use those rules.
- `Wrappers`, `Seqs` and `OrderLines` hold shared types and sequence helpers. Every specification over a list recurses on its prefix, the way a left-to-right loop or `reduce` walks it.

Two points where the code differs from what one might expect; the model follows the code:

- The new payment-history entry's method is `"online"`.
- The backend ignores the payment data the form sends. Every stored order still carries a payment record, because the order schema gives one by default: status "paid", amount paid 0, remaining balance 0 (backend/models/Order.js:39-55). No handler changes that record. So when an order is loaded for editing, the form selects "fully", shows an amount paid of 0 and no date, and has no stored history (`CreateOrderPage.OrderForm.LoadOrder`).

## Model

| member | source | states |
|---|---|---|
| OrderController.Status | backend/controllers/orderController.js:8-156 | a failure is answered 404 exactly for a missing item or order, 400 exactly for an empty list or short stock, and 500 exactly for an update without items |
| OrderController.DrawLine | backend/controllers/orderController.js:13-22 | one create pass goes through iff the item exists with stock at least the quantity; it then lowers exactly that item's stock by the quantity and leaves it non-negative; otherwise it stops at that line with the stock untouched, with ItemNotFound for a missing item and InsufficientStock for a short one |
| OrderController.CreateRun | backend/controllers/orderController.js:8-9 | a missing or empty item list is refused with NoItems before any stock changes |
| OrderController.AdjustLine | backend/controllers/orderController.js:114-131 | one update pass goes through iff the item exists and the increase over the stored quantity (0 for a new item) is not positive or fits the stock; a pass that goes through lowers that item's stock by exactly the difference |
| OrderController.PrevQuantities | backend/controllers/orderController.js:108-111 | the map of previous quantities has exactly the stored lines' ids as keys |
| OrderController.Reconcile | backend/controllers/orderController.js:114-143 | the two loops of update never add or remove an item |
| OrderController.NewOrder | backend/controllers/orderController.js:26-32 | the order `Order.create` stores carries the schema's default payment record, whatever payment data the request held |
| OrderController.Replace | backend/controllers/orderController.js:146-151 | replacing the fields on update leaves the stored payment record as it was |
| OrderController.DrawStopped | backend/controllers/orderController.js:12-23 | once a create walk has stopped on a prefix, the walk over the whole list stops at the same place with the same stock |
| OrderController.AdjustStopped | backend/controllers/orderController.js:114-132 | once an update walk has stopped on a prefix, the whole walk stops at the same place with the same stock |
| OrderController.OrderStore.CreateOrder | backend/controllers/orderController.js:5-42 | the stock becomes that of the create walk, and is kept even when a later line fails; the order is stored under a fresh id only when every line went through; otherwise the failure is returned and no order is stored; every stored order keeps the schema's default payment record (Valid) |
| OrderController.OrderStore.DrawStock | backend/controllers/orderController.js:12-23 | the create loop reaches exactly the stock of the create walk and stops where it stops, with the same failure and line index |
| OrderController.OrderStore.DeleteOrder | backend/controllers/orderController.js:76-96 | an unknown order gives OrderNotFound and changes nothing; otherwise every stored line is restocked and the order removed |
| OrderController.OrderStore.UpdateOrder | backend/controllers/orderController.js:99-158 | an unknown order gives OrderNotFound; a request without items fails with nothing changed; otherwise the stock becomes that of Reconcile, and the fields are replaced only if no line failed; the stored payment record is never touched (Valid) |
| OrderController.OrderStore.PreviousQuantities | backend/controllers/orderController.js:108-111 | the `forEach` loop builds exactly PrevQuantities of the stored lines |
| OrderController.OrderStore.AdjustStock | backend/controllers/orderController.js:114-132 | the loop saving item by item reaches exactly the stock and the stopping point of Adjust |
| OrderController.OrderStore.RestockDroppedLines | backend/controllers/orderController.js:135-143 | the loop reaches exactly the stock of RestockDropped |
| OrderProofs.DrawSubtracts | backend/controllers/orderController.js:12-23 | after a successful create every item exists, and each item's stock has dropped by exactly the sum of its line quantities |
| OrderProofs.AdjustStopsAt | backend/controllers/orderController.js:114-132 | an update walk that stops at line k keeps the stock changes of lines 0..k-1, and line k's item is missing (404) or its increase exceeds the stock (400) |
| OrderProofs.UpdateStopsAt | backend/controllers/orderController.js:114-143 | a refused update never reaches the restock loop: no dropped line is restocked, and the stock is that of the lines before the failing one |
| OrderProofs.DrawStopsAt | backend/controllers/orderController.js:12-23 | a create that stops at line k keeps the decrements of lines 0..k-1, and line k's item is missing (404) or short of stock (400) |
| OrderProofs.DrawKeepsNonNegative | backend/controllers/orderController.js:16-21 | create never drives a non-negative stock below zero |
| OrderProofs.InsufficientStockRejected | backend/controllers/orderController.js:16-19 | a line asking for more than the stock is refused with InsufficientStock and the stock unchanged |
| OrderProofs.RestockAdds | backend/controllers/orderController.js:83-89 | delete raises each existing item's stock by its total quantity over the lines; missing items are skipped |
| OrderProofs.RestockKeepsNonNegative | backend/controllers/orderController.js:83-89 | restocking non-negative quantities keeps stock non-negative |
| OrderProofs.CreateThenDeleteRestores | backend/controllers/orderController.js:12-23 | deleting the lines just created restores every item's stock exactly |
| OrderProofs.PrevQtyIsStoredQty | backend/controllers/orderController.js:108-118 | with unique stored ids, `prevQuantities[id] \|\| 0` is the stored quantity of that item |
| OrderProofs.AdjustSubtracts | backend/controllers/orderController.js:114-132 | a successful adjust loop lowers each item's stock by its new quantity and raises it by its previous quantity once per line naming it |
| OrderProofs.AdjustKeepsNonNegative | backend/controllers/orderController.js:121-129 | the adjust loop never drives a non-negative stock below zero |
| OrderProofs.RestockDroppedAdds | backend/controllers/orderController.js:135-143 | the second loop restocks in full exactly the old items that no new line names, and leaves the rest alone |
| OrderProofs.UpdateNetEffect | backend/controllers/orderController.js:108-143 | with unique ids on both sides, a successful update moves each item's stock by its old quantity minus its new quantity |
| OrderProofs.UniqueQtyAt | backend/controllers/orderController.js:108-111 | with unique ids, a line's id totals to that line's quantity |
| OrderProofs.AdjustUnchanged | backend/controllers/orderController.js:119-131 | a zero difference on every line leaves the stock as it was |
| OrderProofs.UpdateWithSameLinesKeepsStock | backend/controllers/orderController.js:108-143 | updating an order with its own lines, ids unique and all items present, leaves every stock unchanged |
| OrderProofs.RepeatedItemResubmitDrawsStock | backend/controllers/orderController.js:108-111 | with an item repeated in the stored lines, resubmitting the same lines lowers its stock (10 becomes 8), because `prevQuantities` keeps only the last repeat |
| OrderProofs.LoweringQuantityRestocksDifference | backend/controllers/orderController.js:126-128 | lowering a line's quantity restocks exactly the difference and nothing else |
| OrderProofs.DroppingLineRestocksIt | backend/controllers/orderController.js:135-143 | dropping a line restocks its full quantity; the kept line's item is untouched |
| OrderProofs.CreateUpdateDeleteConserves | backend/controllers/orderController.js:12-143 | with unique item ids among the lines, create, then update with the same lines, then delete returns every stock to where it started |
| OrderProofs.RepeatedItemRoundTripLosesStock | backend/controllers/orderController.js:12-143 | with the lines A:5 and A:3, stock 16 becomes 8 after create, 6 after the same-lines update and 14 after delete, so the round trip does not conserve stock |
| OrderProofs.ReplaceKeepsFalsyFields | backend/controllers/orderController.js:146-150 | a falsy request field (absent, or the number 0) keeps the stored value, a truthy one replaces it, and the lines are always replaced |
| OrderLines.Ids | backend/controllers/orderController.js:136 | every line's id is among the ids of the list |
| OrderLines.AbsentId | backend/controllers/orderController.js:118 | an id that no line names has quantity 0 and count 0 |
| OrderLines.UniqueCount | backend/controllers/orderController.js:108-111 | with unique ids, an id is named by exactly one line or by none |
| OrderLines.NonNegativeQtyOf | backend/controllers/orderController.js:86 | non-negative line quantities give a non-negative total per item |
| Seqs.WriteAt | frontend/src/pages/CreateOrder.jsx:104-105 | assigning at an index inside the list changes only that entry and keeps the length; assigning at or past the end appends |
| Seqs.RemoveAt | frontend/src/pages/CreatePurchase.jsx:82 | filtering out a position drops exactly that entry and keeps the rest in order; any other index leaves the list as it is |
| Seqs.SumConcat | frontend/src/pages/CreateOrder.jsx:141-142 | a `reduce` sum over a concatenation is the sum of the two parts |
| Seqs.SumSplitAt | frontend/src/pages/CreateOrder.jsx:141-142 | a `reduce` sum splits around any position into the sums before and after plus that entry |
| Seqs.SumUpdate | frontend/src/pages/CreateOrder.jsx:141-142 | overwriting one entry moves the sum by the difference of the two entries |
| Seqs.SumRemoveAt | frontend/src/pages/CreatePurchase.jsx:86-87 | removing one entry lowers the sum by that entry |
| CreateOrderPage.GstPercentOf | frontend/src/pages/CreateOrder.jsx:86 | a missing or zero GST rate becomes 18; any other rate is kept |
| CreateOrderPage.MakeLine | frontend/src/pages/CreateOrder.jsx:86-100 | the line carries the product's id, name and price and the quantity; its subtotal, tax and total are consistent, and the total is price times quantity marked up by the rate |
| CreateOrderPage.TotalsSplit | frontend/src/pages/CreateOrder.jsx:141-142 | for lines the form built, the order total is the sum of subtotals plus the total tax |
| CreateOrderPage.EditMovesTotals | frontend/src/pages/CreateOrder.jsx:102-107 | editing a line moves both totals by the difference between the old and the new line |
| CreateOrderPage.Without | frontend/src/pages/CreateOrder.jsx:135-136 | removal keeps exactly the lines with another id, and shortens the list by the number of lines with that id |
| CreateOrderPage.WithoutConcat | frontend/src/pages/CreateOrder.jsx:135-136 | removal commutes with splitting the list, so the surviving lines keep their order |
| CreateOrderPage.WithoutAbsent | frontend/src/pages/CreateOrder.jsx:135-136 | removing an id that no line names changes nothing |
| CreateOrderPage.RemoveUndoesAdd | frontend/src/pages/CreateOrder.jsx:110-113 | removing the product just added gives back the list before the add |
| CreateOrderPage.AddKeepsIdsUnique | frontend/src/pages/CreateOrder.jsx:110-113 | an add that passes the duplicate check keeps ids unique and adds exactly its id |
| CreateOrderPage.FindProduct | frontend/src/pages/CreateOrder.jsx:126 | the result is a listed product with that id; there is none exactly when no product has that id |
| CreateOrderPage.ClampQuantity | frontend/src/pages/CreateOrder.jsx:490-497 | with a product selected, the quantity never exceeds its stock and is either the typed value or the stock; otherwise, or when it fits, the typed value is kept |
| CreateOrderPage.Submit | frontend/src/pages/CreateOrder.jsx:147-198 | the payload is produced iff every check passes, with an empty list and missing customer info refused first. An accepted payload carries the form's data and totals. The paid amount is the total or the entered amount, and the balance is total minus paid: 0 with status "paid", or in [0, total) with status "partial". The history is the existing one when editing, or empty when creating, followed by one entry for the paid amount and date |
| CreateOrderPage.OrderForm.constructor | frontend/src/pages/CreateOrder.jsx:10-42 | the form starts empty: no product, quantity 1, no lines, blank customer and delivery, fully paid, no date |
| CreateOrderPage.OrderForm.LoadOrder | frontend/src/pages/CreateOrder.jsx:248-282 | loading a stored order takes its lines, customer and delivery; its payment record's status "paid" selects "fully" and any other status "partial"; the amount is the record's amount paid, so 0 for the schema default; the date is empty, so the loaded form cannot be submitted until a date is picked |
| CreateOrderPage.OrderForm.SelectProduct | frontend/src/pages/CreateOrder.jsx:470-473 | selecting a product resets the quantity to 1 |
| CreateOrderPage.OrderForm.ChangeQuantity | frontend/src/pages/CreateOrder.jsx:490-497 | the quantity becomes the clamped value and stays within the selected product's stock |
| CreateOrderPage.OrderForm.AddItem | frontend/src/pages/CreateOrder.jsx:83-119 | no product: nothing changes. Edit mode: only the entry at editIndex is overwritten, and editIndex returns to null. Add mode: an id already listed changes nothing; otherwise the line is appended and unique ids stay unique. Afterwards the selector resets |
| CreateOrderPage.OrderForm.EditItem | frontend/src/pages/CreateOrder.jsx:124-130 | the line's product and quantity are loaded and editIndex is set |
| CreateOrderPage.OrderForm.RemoveItem | frontend/src/pages/CreateOrder.jsx:135-136 | the list becomes the lines with another id, and no line names the removed id |
| CreateOrderPage.OrderForm.ChooseFullPayment | frontend/src/pages/CreateOrder.jsx:627-631 | choosing "fully" sets the amount to the total and the date to today |
| CreateOrderPage.OrderForm.ChoosePartialPayment | frontend/src/pages/CreateOrder.jsx:643-647 | choosing "partial" clears the amount and the date |
| CreateOrderPage.OrderForm.SubmitForm | frontend/src/pages/CreateOrder.jsx:147-243 | the result is Submit of the form's state; only an accepted and saved submission resets the form, and the history is kept only when editing |
| CreateOrderPage.OrderForm.ResetAfterSave | frontend/src/pages/CreateOrder.jsx:208-233 | after a saved submission the lines, customer, delivery, payment choice, amount and date return to their defaults; the history is cleared only in create mode |
| CreatePurchasePage.CheckDraft | frontend/src/pages/CreatePurchase.jsx:41-45 | the form is accepted iff the name is non-empty and quantity and price are positive; each refusal names the first rule broken |
| CreatePurchasePage.MakeLine | frontend/src/pages/CreatePurchase.jsx:47-51 | the line keeps every form field; subtotal is price times quantity, tax is subtotal times rate / 100, total is subtotal plus tax |
| CreatePurchasePage.AcceptedLineCosts | frontend/src/pages/CreatePurchase.jsx:43-51 | an accepted line at a non-negative rate has a positive subtotal no greater than its total |
| CreatePurchasePage.TotalsSplit | frontend/src/pages/CreatePurchase.jsx:86-87 | for lines the form built, the total is the sum of subtotals plus the total tax |
| CreatePurchasePage.AppendAddsTotals | frontend/src/pages/CreatePurchase.jsx:59-60 | appending a line adds its amounts to both totals |
| CreatePurchasePage.RemoveLowersTotals | frontend/src/pages/CreatePurchase.jsx:81-87 | removing a line lowers both totals by its amounts |
| CreatePurchasePage.Submit | frontend/src/pages/CreatePurchase.jsx:95-105 | a payload is sent iff the list is non-empty; it carries the supplier, the lines and their totals |
| CreatePurchasePage.PurchaseForm.constructor | frontend/src/pages/CreatePurchase.jsx:8-35 | the form starts with no lines, no edit index and the default item form |
| CreatePurchasePage.PurchaseForm.LoadPurchase | frontend/src/pages/CreatePurchase.jsx:126-135 | loading a stored purchase takes its supplier and lines |
| CreatePurchasePage.PurchaseForm.AddItem | frontend/src/pages/CreatePurchase.jsx:40-74 | a refused form changes nothing and reports the first rule broken; an accepted one overwrites the edited entry or is appended with no duplicate check, and the form and edit index reset |
| CreatePurchasePage.PurchaseForm.EditItem | frontend/src/pages/CreatePurchase.jsx:76-79 | the line's fields are loaded into the form and editIndex is set |
| CreatePurchasePage.PurchaseForm.RemoveItem | frontend/src/pages/CreatePurchase.jsx:81-84 | the list loses exactly that position |
| AuthController.Status | backend/controllers/authController.js:23-126 | each reply's HTTP status: 201 register, 400 duplicate or bad credentials, 401 no cookie, 403 refused refresh, 500 thrown |
| AuthController.FindByEmail | backend/controllers/authController.js:27 | the result is the first user with that email; there is none exactly when no user has it |
| AuthController.StartSession | backend/controllers/authController.js:6-20 | an access and a refresh token are signed for the user, both unseen before, and the refresh token is stored on that user alone |
| AuthController.RegisterStep | backend/controllers/authController.js:23-38 | registration succeeds iff the email is new and a password was given, appending the user; a taken email is refused with 400 and nothing changes |
| AuthController.LoginStep | backend/controllers/authController.js:41-75 | login succeeds iff the email is known and the password matches; success stores the new refresh token on that user; an unknown email and a wrong password both get "Invalid credentials" with nothing changed |
| AuthController.RefreshStep | backend/controllers/authController.js:78-108 | no cookie gives 401; a token that does not verify gives 403; a verified token that is not the stored one gives 403; in each of these nothing changes. Success, exactly for the stored token, rotates it |
| AuthController.LogoutStep | backend/controllers/authController.js:111-126 | a token that does not verify gives 500 with nothing changed; a verified one clears its user's stored token and changes nothing else |
| AuthController.StartSessionValid | backend/controllers/authController.js:53-57 | starting a session keeps the session bookkeeping valid |
| AuthController.RegisterValid | backend/controllers/authController.js:27-32 | register keeps the bookkeeping valid, emails unique included |
| AuthController.LoginValid | backend/controllers/authController.js:45-57 | login keeps the bookkeeping valid |
| AuthController.RefreshValid | backend/controllers/authController.js:84-94 | refresh keeps the bookkeeping valid |
| AuthController.LogoutValid | backend/controllers/authController.js:113-120 | logout keeps the bookkeeping valid |
| AuthController.RegisteredEmailIsTaken | backend/controllers/authController.js:27-29 | after a registration, registering the same email again is refused and changes nothing |
| AuthController.LoginRevokesEarlierTokens | backend/controllers/authController.js:53-57 | after a login, every token of that user signed earlier is refused by refresh |
| AuthController.LoginCookieRefreshes | backend/controllers/authController.js:56-66 | the refresh token a login hands out is accepted by refresh |
| AuthController.RotatedTokenRejected | backend/controllers/authController.js:87-94 | once a token has been exchanged, presenting it again is refused with nothing changed, while its replacement is accepted |
| AuthController.LogoutEndsSession | backend/controllers/authController.js:113-120 | after a logout that reached the user, no token of that user refreshes |
| AuthController.StaleTokenEndsCurrentSession | backend/controllers/authController.js:113-120 | a token already rotated out still logs out, and so ends the session that replaced it |
| AuthController.AuthStore.constructor | backend/controllers/authController.js:1-20 | the store starts with no users and no tokens, and valid |
| AuthController.AuthStore.GenerateTokens | backend/controllers/authController.js:6-20 | two tokens for the user are signed with a fresh serial |
| AuthController.AuthStore.Register | backend/controllers/authController.js:23-38 | the handler's reply and new state are those of RegisterStep |
| AuthController.AuthStore.Login | backend/controllers/authController.js:41-75 | the handler's reply and new state are those of LoginStep |
| AuthController.AuthStore.Refresh | backend/controllers/authController.js:78-108 | the handler's reply and new state are those of RefreshStep |
| AuthController.AuthStore.Logout | backend/controllers/authController.js:111-126 | the handler's reply and new state are those of LogoutStep |
| Text.LeadingSpaces | frontend/src/pages/Signup.jsx:30 | the count is the length of the white-space run that starts the string |
| Text.TrailingSpaces | frontend/src/pages/Signup.jsx:30 | the count is the length of the white-space run that ends the string |
| Text.Trim | frontend/src/pages/Signup.jsx:30 | the result is a slice with only white space around it, and it neither starts nor ends with white space |
| Text.TrimEmptyIffBlank | frontend/src/pages/Signup.jsx:30 | a string trims to nothing exactly when it is all white space |
| Text.TrimIdempotent | frontend/src/pages/Items.jsx:27 | trimming twice is trimming once |
| Text.EmailShapeInContext | frontend/src/pages/Signup.jsx:38 | the unanchored pattern still matches with any text around a match |
| Text.EmailShapeNotBlank | frontend/src/pages/Signup.jsx:35-38 | a string the pattern accepts is never blank |
| Text.EmailShapeAccepted | frontend/src/pages/Signup.jsx:38 | "ann@shop.in", " ann@shop.in " and "x@@.y" pass the pattern test |
| Text.EmailWithoutDotRejected | frontend/src/pages/Signup.jsx:38-40 | "ann@shop", with no dot after the '@', fails the pattern test |
| Text.EmailWithEmptyDomainRejected | frontend/src/pages/Signup.jsx:38-40 | "ann@.in", with nothing between the '@' and the dot, fails the pattern test |
| Text.Join | frontend/src/pages/Items.jsx:37 | joining one part gives that part |
| Text.Split | backend/controllers/itemController.js:39 | splitting always gives at least one piece |
| Text.SplitNoSep | backend/controllers/itemController.js:39 | a string without the separator splits into itself |
| Text.SplitAfterSep | backend/controllers/itemController.js:39 | text after a last separator becomes one new piece |
| Text.SplitJoin | backend/controllers/itemController.js:38-39 | splitting a join on the same separator gives back the parts when none contains it |
| Credentials.NameRule | frontend/src/pages/Signup.jsx:30-33 | the name is refused, with "Name is required", exactly when it is all white space |
| Credentials.EmailRule | frontend/src/pages/Signup.jsx:35-41 | "required" exactly for a blank email, "invalid format" exactly for a non-blank one the pattern rejects, accepted exactly when the pattern matches |
| Credentials.PasswordRule | frontend/src/pages/Signup.jsx:43-49 | "required" exactly for a blank password, "too short" exactly for a non-blank one under 6 characters, accepted otherwise |
| Credentials.PaddedPasswordPasses | frontend/src/pages/login.jsx:38-44 | the length counts surrounding spaces: "  ab  " passes |
| Credentials.SpacesPasswordRequired | frontend/src/pages/login.jsx:38-40 | six spaces are a missing password, not a long enough one |
| Credentials.ShortPasswordTooShort | frontend/src/pages/login.jsx:41-43 | "ab" is refused as shorter than 6 characters |
| Credentials.ClearError | frontend/src/pages/Signup.jsx:83 | the field's error is kept as an empty, hidden entry and every other entry is unchanged |
| SignupPage.Validate | frontend/src/pages/Signup.jsx:26-58 | each field has an error iff its rule fails, with that rule's message; the password confirmation is checked regardless; valid iff no rule fired iff the errors are empty |
| SignupPage.HandleChange | frontend/src/pages/Signup.jsx:81-84 | only the named field takes the value, and only its error is cleared |
| LoginPage.Validate | frontend/src/pages/login.jsx:26-48 | email and password each have an error iff their rule fails, with its message; valid iff both pass iff the errors are empty |
| LoginPage.HandleChange | frontend/src/pages/login.jsx:73-76 | only the named field takes the value, and only its error is cleared |
| ItemsPage.RemoveAll | frontend/src/pages/Items.jsx:57 | the filter keeps exactly the other categories |
| ItemsPage.ToggleCategory | frontend/src/pages/Items.jsx:54-60 | the category is selected afterwards iff it was not before; others are unchanged; an unselected one is appended |
| ItemsPage.RemoveAllKeepsNoDuplicates | frontend/src/pages/Items.jsx:57 | filtering never creates a duplicate |
| ItemsPage.RemoveAllAbsent | frontend/src/pages/Items.jsx:57 | filtering out an unselected category changes nothing |
| ItemsPage.ToggleKeepsNoDuplicates | frontend/src/pages/Items.jsx:54-60 | toggling never lists a category twice |
| ItemsPage.ToggleTwice | frontend/src/pages/Items.jsx:54-60 | toggling twice restores the selection; for an unselected category the list itself comes back, and a selected one moves to the end |
| ItemsPage.StockBadge | frontend/src/pages/Items.jsx:188-200 | "Out of Stock" exactly at 0, "Low Stock" exactly for non-zero stock up to 5, "Available" exactly above 5 |
| ItemsPage.ValidateItem | frontend/src/pages/Items.jsx:336-344 | each field is flagged iff blank or falsy; the form is valid iff nothing was flagged |
| ItemsPage.CategoryParam | frontend/src/pages/Items.jsx:36-38 | the category parameter is present iff a category is selected |
| ItemsPage.BuildParams | frontend/src/pages/Items.jsx:27-39 | page and limit 10 are always sent; the category parameter is the selection joined with ","; a search is sent iff the query is not blank, and it is the trimmed query |
| ItemsPage.CategoryRoundTrip | frontend/src/pages/Items.jsx:36-38 | the listing filters by exactly the selected categories, or not at all for an empty selection |
| ItemsPage.TotalPages | backend/controllers/itemController.js:56 | the page count is the ceiling of total / 10 |
| ItemsPage.NextEnabledPastLastPage | frontend/src/pages/Items.jsx:230-236 | from a page past the page count, every click on Next moves one page on, and Next is never disabled along the way |
| ItemsPage.EmptyListingNeverStops | frontend/src/pages/Items.jsx:230-236 | with no items there are 0 pages, so from the first page n clicks on Next reach page 1 + n and Next is still enabled there |
| ItemsPage.LastPage | frontend/src/pages/Items.jsx:228-230 | the last page to show is at least 1 and at least the page count |
| ItemsPage.PagingStaysInRange | frontend/src/pages/Items.jsx:221-237 | with Next disabled on or past the last page, Prev and Next keep the page within 1..LastPage |

## Left out

- Database access, HTTP and the browser are parameters or are left out. Stock and orders are maps, and users are a sequence indexed by id. Exceptions thrown by the database are not modelled; the only 500 paths kept are for-of over a missing `items` in update, and a missing password in register and login.
- Concurrency: each request runs alone. The check-then-act race between concurrent order requests is not modelled. The lack of rollback is modelled.
- JWT signing and verification: expiry, the access token's use and the signature algorithm are not modelled. A token is a serial number, and "verifies" means it was signed with the refresh secret. Two logins in the same second would give equal JWTs in the running system; here every token is distinct.
- bcrypt: modelled as an injective digest without salt or cost factor.
- The user schema (backend/models/User.js) is not part of this model. A user is a name, an email, a digest and an optional token.
- Floating point, rounding and `toFixed`: money is exact `real` arithmetic, and NaN from `Number("abc")` is not modelled.
- String lengths count code points, not UTF-16 units.
- The purchase form's numeric inputs are `Number(value)`. An input never typed in holds "", which every check treats like 0; it is 0 here.
- CreateOrderPage.OrderForm.LoadOrder: a missing customer or delivery object becomes the blank form, not `{}` with undefined fields. The branch for a response without a `payment` record (frontend/src/pages/CreateOrder.jsx:269-274) is left out: the order schema's defaults give every stored order one.
- CreatePurchasePage.PurchaseForm.AddItem: `handleRemoveItem` does not reset `editIndex`, so a stale index can point past the end of the list. JavaScript then leaves a hole in the array, and the submitted JSON holds `null` there. Here the line is appended (Seqs.WriteAt).
- Seqs.WriteAt: an index equal to the length appends, as JavaScript does. An index beyond the length also appends here, where JavaScript leaves holes that become `null` in the submitted JSON. Both forms' AddItem use it.
- CreateOrderPage.OrderForm.ChangeQuantity: order quantities are whole numbers here (`OrderLines.OrderLine.quantity` is an `int`). The quantity input takes `Number(value)`, and `min="1"` does not stop a typed 2.5, which the backend would then subtract from stock. Fractional order quantities and stock levels are not modelled.
- CreateOrderPage.OrderForm.AddItem: a stale `editIndex` beyond the end leaves a hole in a JavaScript array; here it appends (Seqs.WriteAt).
- Rendering, toasts, alerts, navigation, `setTimeout` and the copy-billing-to-delivery button are UI. The 500 ms search debounce is also left out; the query is trimmed as it is sent.
- frontend/src/utils/axiosInstance.js (the 401-refresh queue), the other controllers, cron jobs, email, routes and the other pages are not part of this model.
- The cookie options (httpOnly, path, 7-day max age) are not modelled.
- The item form's check sees a number loaded from a stored item, so stored stock 0 counts as missing while typed "0" does not. An out-of-stock item cannot be re-saved without retyping its stock. `ItemsPage.ValidateItem` states this as written.

## Findings

| source | as written | input that shows it | evidently intended | confidence | as-written member | corrected member |
|---|---|---|---|---|---|---|
| frontend/src/pages/Items.jsx:232 | Next is disabled only when `page === totalPages` | a filter or search with no matches gives `totalPages` 0, so on page 1 Next stays enabled and can be clicked for ever; a page left past the end by a narrower filter also never stops | disable Next on or past the last page (`page >= totalPages`) | not executed | ItemsPage.EmptyListingNeverStops | ItemsPage.PagingStaysInRange |
| backend/controllers/orderController.js:108-111 | `prevQuantities` keeps one quantity per item id, the last stored line's, while the update loop and delete treat each line on its own | an order with lines A:5 and A:3 from stock 16: create leaves 8, an update with the same lines leaves 6, and delete leaves 14 instead of 16; the edit path of frontend/src/pages/CreateOrder.jsx:102-107 and the API both let a repeated item through | an order's lines name each item once, so an update with the same lines changes nothing and create, update and delete conserve stock | not executed | OrderProofs.RepeatedItemRoundTripLosesStock | OrderProofs.CreateUpdateDeleteConserves |
