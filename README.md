# Pure Element storefront: order, review and page rules in Dafny

This project models the rules in the Pure Element shop that can be stated
and checked. The backend holds the order workflow and the review routes.
The React pages hold the form validators, the request payloads they build,
and the list edits they make locally after a request.

The hosted database is a class `RecordStore.Db`. It keeps one sequence per
table (`products`, `orders`, `order_items`, `carts`, `cart_items`,
`reviews`) and the counter the database takes row ids from. Each handler is
a method that takes that store and returns a response datatype, one
constructor per HTTP status it can send.

Several things outside the code become parameters:
- A failed store call, a failed HTTP request or an upload result is a
  boolean or `Option` parameter.
- The clock is a `now` parameter.
- Each page's React state is a class whose fields are the state variables.
  Its handlers are methods that state the new value of every field they may
  change.

Values are represented as follows:
- Money is in integer minor units, so an order total is exactly the sum of
  price × quantity.
- Ratings are reals; the rounded average is an integer number of tenths.
- JavaScript's `trim`, `toLowerCase`, `parseInt`, `parseFloat`, `Number` and
  `localeCompare` are written out in the modules `Text` and `JsNumbers`.
  Their definitions are restricted to the cases the pages reach.

The modules follow the source files:
- `OrderController` follows `backend/controllers/orderController.js`.
- `ReviewRoutes` follows `backend/routes/reviews.js`.
- `CheckoutPage`, `AdminOrdersPage`, `ManageCategoriesPage`,
  `AdminProductFormPage`, `ProfilePage` and `ProductDetailPage` follow the
  page of the same name.
- `Seqs` and `Sorting` hold the generic `filter`, `map`, `find`, count and a
  sort (insertion sort) proved to give a sorted permutation and to be stable.

## Model

| member | source | states |
|---|---|---|
| Text.TrimStart | frontend/src/pages/Checkout.jsx:43 | the result is a suffix of the input; only white space is dropped, and the result does not start with white space |
| Text.TrimEnd | frontend/src/pages/Checkout.jsx:43 | the result is a prefix of the input; only white space is dropped, and the result does not end with white space |
| Text.IsSpace | frontend/src/pages/Checkout.jsx:43 | definition: the characters `trim` removes, the ECMAScript white space and line terminators |
| Text.Trim | frontend/src/pages/Checkout.jsx:43 | definition: `s.trim()` drops white space at both ends, as `TrimStart` then `TrimEnd` |
| Text.TrimmedEmptyIffAllSpace | frontend/src/pages/Checkout.jsx:43 | `s.trim()` is empty exactly when every character of `s` is white space |
| Text.BlankIffTrimmedEmpty | frontend/src/pages/admin/ManageCategories.jsx:97 | a string is blank exactly when its trimmed form is empty |
| Text.LowerChar | backend/controllers/orderController.js:184 | upper-case ASCII letters move to lower case; every other character is kept |
| Text.Lower | backend/controllers/orderController.js:184 | lower-casing keeps the length and maps each character by `LowerChar` |
| Text.LowerIsLower | backend/controllers/orderController.js:184 | lower-casing is idempotent: its result is lower case, and a lower-case string is its own lower case |
| Text.IndexOf | frontend/src/pages/Checkout.jsx:44 | the result is the first position where the pattern occurs, or none when it occurs nowhere |
| Text.ReplaceFirst | frontend/src/pages/Checkout.jsx:44 | only the first occurrence is replaced; a string without the pattern is unchanged |
| Text.StrLeTotal | frontend/src/pages/admin/ManageCategories.jsx:72 | the string order that stands for `localeCompare` relates any two strings |
| Text.StrLeTransitive | frontend/src/pages/admin/ManageCategories.jsx:72 | that string order is transitive |
| Text.StrLeAntisymmetric | frontend/src/pages/admin/ManageCategories.jsx:72 | that string order is antisymmetric |
| Text.StrLe | frontend/src/pages/admin/ManageCategories.jsx:72 | definition: code-point lexicographic order, the stand-in for `localeCompare`: the empty string first, then by first character, then by the rest |
| Text.StrCompare | frontend/src/pages/admin/ManageCategories.jsx:72 | the sign of the comparison agrees with the string order, and it is zero exactly on equal strings |
| Seqs.Filter | frontend/src/pages/admin/ManageCategories.jsx:62 | `filter` keeps exactly the elements that satisfy the predicate, and no more copies of any than the input holds |
| Seqs.FilterAppend | frontend/src/pages/admin/ManageCategories.jsx:175 | filtering distributes over concatenation, so the kept elements stay in their order |
| Seqs.FilterAllBut | backend/routes/reviews.js:292-295 | when one element fails the predicate and all others pass, the filter removes exactly that position |
| Seqs.Count | backend/controllers/orderController.js:68-72 | the count is the length of the filter, and it is zero exactly when no element satisfies the predicate |
| Seqs.Map | frontend/src/pages/admin/AdminOrders.jsx:79 | `map` keeps the length and applies the function at each position |
| Seqs.FindBy | frontend/src/pages/admin/AdminProductForm.js:60 | `find` by a key: a result has that key and no earlier element has it; none means no element has the key |
| Sorting.SortBy | backend/controllers/orderController.js:122 | for a total, transitive order the result is a permutation of the input and is sorted |
| Sorting.InsertKeepsClass | frontend/src/pages/admin/ManageCategories.jsx:69 | inserting an element into a list leaves the order of the elements equivalent to any fixed one unchanged, adding the element in its place when it is equivalent too |
| Sorting.SortByStable | frontend/src/pages/admin/ManageCategories.jsx:69 | the sort is stable: the elements equivalent to any fixed one appear in the result in their input order |
| JsNumbers.NatToString | frontend/src/pages/admin/AdminProductForm.js:69 | the decimal digits of `n` are non-empty, all digits, and denote `n` |
| JsNumbers.IntToString | frontend/src/pages/admin/AdminProductForm.js:69 | definition: `String(n)` / `n.toString()` on an integer: a minus sign for a negative number, then the decimal digits of its magnitude |
| JsNumbers.ParseInt | frontend/src/pages/admin/ManageCategories.jsx:104 | `parseInt` skips leading white space and reads an optional sign and the longest digit run; it gives none (`NaN`) without digits |
| JsNumbers.ParseFloat | frontend/src/pages/admin/AdminProductForm.js:163 | definition: `parseFloat` reads the longest decimal literal after leading white space, with sign, fraction and exponent; none (`NaN`) without one |
| JsNumbers.ParseIntOfIntToString | frontend/src/pages/admin/ManageCategories.jsx:104 | `parseInt(String(n)) == n`: printing an integer and parsing it back round-trips |
| JsNumbers.ParseFloatOfIntToString | frontend/src/pages/admin/AdminProductForm.js:163 | `parseFloat` and `Number` of a printed integer give that integer back |
| JsNumbers.NumberOf | frontend/src/pages/admin/AdminProductForm.js:163 | `Number` of a blank string is 0 |
| JsNumbers.IsNaN | frontend/src/pages/admin/AdminProductForm.js:163-167 | definition: `isNaN(s)` on a string holds exactly when `Number(s)` is `NaN` |
| RecordStore.Db.InsertOrder | backend/controllers/orderController.js:24-38 | the order is appended with a fresh id, and the store's key invariants still hold |
| RecordStore.Db.DeleteOrder | backend/controllers/orderController.js:60 | the orders with that id are removed, and the invariants still hold |
| RecordStore.Db.InsertOrderLines | backend/controllers/orderController.js:53-55 | the lines are appended and the id counter moves past them |
| RecordStore.Db.DeleteCartLines | backend/controllers/orderController.js:65-73 | exactly the cart lines of that cart are removed |
| RecordStore.Db.InsertReview | backend/routes/reviews.js:137-155 | the review is appended with a fresh id and no update time, and ids stay unique |
| RecordStore.Db.UpdateReview | backend/routes/reviews.js:217-224 | the review with that id is revised in place, and ids stay unique |
| RecordStore.Db.DeleteReview | backend/routes/reviews.js:292-295 | the reviews with that id are removed, and the invariants still hold |
| RecordStore.WithRevision | backend/routes/reviews.js:217-224 | only the matching review changes: its rating, comment and update time; every other row is kept |
| RecordStore.WithoutReview | backend/routes/reviews.js:292-295 | the rows left are exactly those whose id differs |
| RecordStore.WithoutOrder | backend/controllers/orderController.js:60 | the rows left are exactly those whose id differs |
| RecordStore.WithoutCart | backend/controllers/orderController.js:65-73 | the cart lines left are exactly those of other carts |
| RecordStore.FindOrder | backend/controllers/orderController.js:188-196 | a found order is in the table with that id; none means no row has that id |
| RecordStore.FindReview | backend/routes/reviews.js:202-210 | a found review is in the table with that id; none means no row has that id |
| RecordStore.UserCart | backend/controllers/orderController.js:68-73 | `.single()` yields the user's cart exactly when the user has exactly one cart row |
| RecordStore.ProductExists | backend/routes/reviews.js:83-91 | definition: the product lookup finds a row, that is some product has that id |
| OrderController.RequestError | backend/controllers/orderController.js:10-16 | the items check comes first; the five shipping fields are checked for truthiness only (country is not required); the three outcomes are exclusive |
| OrderController.TotalAppend | backend/controllers/orderController.js:19-21 | the total of a concatenation is the sum of the totals |
| OrderController.ShippingOf | backend/controllers/orderController.js:30-35 | shipping fields are stored as sent, and a missing country becomes 'India' |
| OrderController.OrderLinesFor | backend/controllers/orderController.js:46-51 | one line per item, in order, pointing at the new order and copying product, quantity and price |
| OrderController.LinesTotalOfOrderLines | backend/controllers/orderController.js:19-21 | the lines created for an order sum to the order's total |
| OrderController.PassesChecks | backend/controllers/orderController.js:10-16 | a request past both checks has a non-empty item list |
| OrderController.NewOrder | backend/controllers/orderController.js:24-36 | the inserted order has the computed total, status 'pending_payment' and the stored shipping fields |
| OrderController.Summary | backend/controllers/orderController.js:80-88 | definition: the 201 body's order holds the id, total, status and creation time of the stored order |
| OrderController.CreateOrder | backend/controllers/orderController.js:4-93 | covers every response and the store after it: 400 with no write; 500 when the order insert fails; 500 when the line insert fails, with the order deleted again unless that delete fails and the id counter one past the order; 500 ('Internal server error') when the user has no single cart row, with order and lines kept; 201 with the summary, the cart cleared unless that delete fails; the invariant that every total equals the sum of its lines is kept on every path except a line-insert failure whose rollback also fails, which leaves an order without lines |
| OrderController.Total | backend/controllers/orderController.js:19-21 | definition: the order total is the sum of price at purchase × quantity over the items |
| OrderController.IsAllowedStatus | backend/controllers/orderController.js:184 | definition: a status is accepted when its lower-case form is one of the allowed statuses |
| OrderController.PersistOrder | backend/controllers/orderController.js:24-62 | the two inserts and the compensating delete; exactly one line per item on success; after a failed line insert, no new lines, the id counter one past the order, and the order table as it started when the rollback works |
| OrderController.FreshOrderDeleted | backend/controllers/orderController.js:57-62 | the compensating delete removes the new order and leaves the older ones exactly as before |
| OrderController.NewOrderKeepsTotals | backend/controllers/orderController.js:19-55 | appending a fresh order and exactly its lines keeps every order's total equal to the sum of its lines |
| OrderController.OlderOrderKeepsLines | backend/controllers/orderController.js:46-55 | the new lines do not change any older order's lines |
| OrderController.NewOrderLines | backend/controllers/orderController.js:46-55 | the lines of the new order are exactly the ones just created |
| OrderController.AllowedStatusIgnoresCase | backend/controllers/orderController.js:183-186 | a status is accepted exactly when it matches an allowed status up to ASCII case, in both directions |
| OrderController.WithStatus | backend/controllers/orderController.js:198-203 | only the order with that id gets the new status; length and every other row are kept |
| OrderController.UpdateOrderStatus | backend/controllers/orderController.js:178-215 | the status is checked before the lookup; 400 with no change; 404 with no change when the order is missing; 500 with no change when the update fails; otherwise the lower-cased status is stored from any current status |
| OrderController.NewestFirst | backend/controllers/orderController.js:122 | a permutation of the orders with creation times not increasing |
| OrderController.Expand | backend/controllers/orderController.js:101-120 | each listed order carries exactly its own `order_items` |
| OrderController.GetMyOrders | backend/controllers/orderController.js:97-134 | exactly the caller's orders, no other user's, newest first, each with its own lines; 500 when the query fails |
| OrderController.SameElementsOwned | backend/controllers/orderController.js:121 | reordering the caller's orders keeps them the caller's |
| OrderController.GetAllOrders | backend/controllers/orderController.js:137-175 | every order, newest first, each with its own lines; 500 when the query fails |
| ReviewRoutes.RatingAccepted | backend/routes/reviews.js:78 | definition: a rating passes `!rating \|\| rating < 1 \|\| rating > 5` exactly when it is present, non-zero and between 1 and 5 |
| ReviewRoutes.RatingSum | backend/routes/reviews.js:39 | definition: the sum of the ratings, as the `reduce` adds them |
| ReviewRoutes.Purchased | backend/routes/reviews.js:111-134 | definition: some order line of the product belongs to an order of the user whose status is 'completed' |
| ReviewRoutes.ReviewsBy | backend/routes/reviews.js:94-99 | definition: the reviews of this product by this user, the rows the earlier-review lookup selects |
| ReviewRoutes.OneReviewPerPair | backend/routes/reviews.js:93-108 | definition: no two reviews share a (product, user) pair, the rule the earlier-review check keeps |
| ReviewRoutes.RatingAcceptedIsRange | backend/routes/reviews.js:78-80 | the truthiness-and-range check accepts exactly the ratings in [1, 5], non-integers included |
| ReviewRoutes.StoredComment | backend/routes/reviews.js:143 | a missing or empty comment is stored as null; any other comment as sent |
| ReviewRoutes.RoundHalfUp | backend/routes/reviews.js:56 | `Math.round` gives the integer within one half of its argument, halves up |
| ReviewRoutes.AverageTenths | backend/routes/reviews.js:38-40 | the average in tenths is within a half of ten times the mean, or 0 without reviews |
| ReviewRoutes.RatingSumBounds | backend/routes/reviews.js:38-40 | ratings in [1, 5] sum to between `n` and `5n` |
| ReviewRoutes.AverageInRange | backend/routes/reviews.js:38-40 | with stored ratings in [1, 5], the rounded average lies between 1.0 and 5.0 |
| ReviewRoutes.MeanBounds | backend/routes/reviews.js:38-40 | a mean of values in [1, 5] lies in [1, 5] |
| ReviewRoutes.NewestReviewsFirst | backend/routes/reviews.js:30 | a permutation of the reviews with creation times not increasing |
| ReviewRoutes.ProductReviews | backend/routes/reviews.js:29 | exactly the reviews of that product |
| ReviewRoutes.Views | backend/routes/reviews.js:43-52 | one formatted entry per review, in order |
| ReviewRoutes.GetReviews | backend/routes/reviews.js:7-64 | reviews of the product newest first, their count, and their rounded average (0 without reviews); 500 when the query fails |
| ReviewRoutes.RatingSumPermutation | backend/routes/reviews.js:38-40 | the sum, and so the average, does not depend on the listing order |
| ReviewRoutes.RatingSumRemove | backend/routes/reviews.js:39 | taking one review out of the sum subtracts its rating |
| ReviewRoutes.CreateReview | backend/routes/reviews.js:67-183 | the checks run in order (rating, product, earlier review, purchase through a completed order of this user, insert), and the first failure answers without writing; created exactly when all pass; a success appends exactly one review; at most one review per (user, product) is kept |
| ReviewRoutes.NoEarlierReview | backend/routes/reviews.js:94-108 | under one review per pair, a lookup that finds no single row means the user has no review of the product |
| ReviewRoutes.OneReviewPerPairAppend | backend/routes/reviews.js:94-108 | appending a review for a new pair keeps one review per pair |
| ReviewRoutes.UpdateReview | backend/routes/reviews.js:186-263 | rating first, then 404 for a missing review, 403 for another user's, 500 on a failed update, all with the table unchanged; otherwise only that review's rating, stored comment and update time change |
| ReviewRoutes.RevisionKeepsKeys | backend/routes/reviews.js:217-224 | a revision keeps every review's id, product, author and creation time, and so keeps one review per pair |
| ReviewRoutes.DeleteReview | backend/routes/reviews.js:266-308 | 404 for a missing review, 403 for another user's, 500 on a failed delete, all with the table unchanged; otherwise exactly that id is removed |
| ReviewRoutes.DeleteRemovesOnlyTarget | backend/routes/reviews.js:292-295 | with unique ids, the delete removes exactly the matching position and keeps the rest in order |
| CheckoutPage.FormComplete | frontend/src/pages/Checkout.jsx:40-49 | definition: every required shipping field is non-blank after `trim` |
| CheckoutPage.CountryOptions | frontend/src/pages/Checkout.jsx:206-209 | definition: the four values of the country `<select>`, in order |
| CheckoutPage.InitialForm | frontend/src/pages/Checkout.jsx:15-22 | definition: the six shipping fields empty, except the country, 'United States' |
| CheckoutPage.Label | frontend/src/pages/Checkout.jsx:44 | definition: the field name with its first `shipping_` and then its first `_` replaced, as the message shows it |
| CheckoutPage.Prompt | frontend/src/pages/Checkout.jsx:44 | definition: the message for a blank field is "Please fill in your " followed by its label |
| CheckoutPage.Subtotal | frontend/src/pages/Checkout.jsx:100 | definition: the sum of price × quantity over the cart |
| CheckoutPage.StripPrefix | frontend/src/pages/Checkout.jsx:44 | removing 'shipping_' from a field name leaves the rest of the name |
| CheckoutPage.LabelOfTwoWords | frontend/src/pages/Checkout.jsx:44 | only the first underscore after the prefix becomes a space ('zip_code' gives 'zip code') |
| CheckoutPage.LabelOfOneWord | frontend/src/pages/Checkout.jsx:44 | a one-word field name is reported as that word |
| CheckoutPage.PayloadItems | frontend/src/pages/Checkout.jsx:57-61 | one item per cart entry, with product and quantity copied and the price taken from the product |
| CheckoutPage.Payload | frontend/src/pages/Checkout.jsx:56-68 | the six shipping fields are sent exactly as typed, untrimmed, and there is no tax or total field |
| CheckoutPage.CompleteFormPassesServerChecks | frontend/src/pages/Checkout.jsx:40-68 | a form that passes the page's validation, sent with a non-empty cart, passes the server's checks |
| CheckoutPage.ChosenCountryIsKept | frontend/src/pages/Checkout.jsx:206-209 | a country from the menu is stored as chosen, so the server's 'India' default is never reached |
| CheckoutPage.SubtotalIsServerTotal | frontend/src/pages/Checkout.jsx:100 | the page's subtotal is the total the server computes for the order it sends |
| CheckoutPage.GrandTotal | frontend/src/pages/Checkout.jsx:101-103 | the total is the subtotal plus 8% tax, with free shipping |
| CheckoutPage.Checkout.constructor | frontend/src/pages/Checkout.jsx:15-22 | the form starts empty, with 'United States' as the country |
| CheckoutPage.Checkout.HandleInputChange | frontend/src/pages/Checkout.jsx:32-38 | one field is set and the others are kept; the page's state stays valid, the country staying one of the menu's |
| CheckoutPage.Checkout.ValidateForm | frontend/src/pages/Checkout.jsx:40-49 | valid exactly when all five required fields are non-blank; otherwise the message names the first blank field in order |
| CheckoutPage.Checkout.ProceedToPayment | frontend/src/pages/Checkout.jsx:51-68 | a request is sent exactly when the form is complete, and it is the order payload; its country is the chosen one and never the server's 'India' default |
| AdminOrdersPage.StatusOptions | frontend/src/pages/admin/AdminOrders.jsx:6-10 | definition: the menu's three options, values 'pending', 'completed', 'cancelled' with their captions |
| AdminOrdersPage.OptionValues | frontend/src/pages/admin/AdminOrders.jsx:93-95 | the menu offers one value per option, in order |
| AdminOrdersPage.OptionValueAllowed | frontend/src/pages/admin/AdminOrders.jsx:6-10 | each option value is already lower case and equals the server's status at the same position |
| AdminOrdersPage.StatusOptionsAreAllowed | frontend/src/pages/admin/AdminOrders.jsx:6-10 | the values offered are exactly the server's allowed statuses, all accepted by its check |
| AdminOrdersPage.ItemCount | frontend/src/pages/admin/AdminOrders.jsx:100 | the item count is the length of `order_items`, or 0 when absent |
| AdminOrdersPage.WithLocalStatus | frontend/src/pages/admin/AdminOrders.jsx:39 | only the row with the matching id gets the new status; length, order and other rows are kept |
| AdminOrdersPage.LocalUpdateMatchesServer | frontend/src/pages/admin/AdminOrders.jsx:39 | after an accepted change to a menu status, the local list equals the server's stored state |
| AdminOrdersPage.AdminOrders.constructor | frontend/src/pages/admin/AdminOrders.jsx:13-15 | nothing is marked as updating at first |
| AdminOrdersPage.AdminOrders.BeginStatusChange | frontend/src/pages/admin/AdminOrders.jsx:35 | the row is marked as updating, and its menu is disabled |
| AdminOrdersPage.AdminOrders.SelectDisabled | frontend/src/pages/admin/AdminOrders.jsx:91 | definition: a row's menu is disabled exactly while that row's update is in flight |
| AdminOrdersPage.AdminOrders.EndStatusChange | frontend/src/pages/admin/AdminOrders.jsx:36-44 | on success only the local update happens; on failure the list is untouched; either way nothing is marked as updating any more |
| ManageCategoriesPage.ParentCategories | frontend/src/pages/admin/ManageCategories.jsx:62 | exactly the categories with no parent |
| ManageCategoriesPage.ParentCategoriesKeepOrder | frontend/src/pages/admin/ManageCategories.jsx:62 | the parent list keeps the categories' order |
| ManageCategoriesPage.ById | frontend/src/pages/admin/ManageCategories.jsx:63-67 | the map's keys are exactly the ids in use, and each maps to a category with that id |
| ManageCategoriesPage.ParentName | frontend/src/pages/admin/ManageCategories.jsx:70-71 | '' for a top-level category or a missing parent, otherwise the parent's name |
| ManageCategoriesPage.KeyCompare | frontend/src/pages/admin/ManageCategories.jsx:72-74 | the corrected comparator is zero exactly on equal keys |
| ManageCategoriesPage.KeyLeTotal | frontend/src/pages/admin/ManageCategories.jsx:72-74 | the corrected order relates any two keys |
| ManageCategoriesPage.KeyLeTransitive | frontend/src/pages/admin/ManageCategories.jsx:72-74 | the corrected order is transitive |
| ManageCategoriesPage.CategoryLeIsOrder | frontend/src/pages/admin/ManageCategories.jsx:68-76 | the corrected category order is total and transitive, so sorting by it is well defined |
| ManageCategoriesPage.SortedCategories | frontend/src/pages/admin/ManageCategories.jsx:68-76 | a permutation of the categories, ordered by parent name, then sort order (missing as 0), then name |
| ManageCategoriesPage.KeyLeAntisymmetric | frontend/src/pages/admin/ManageCategories.jsx:69-75 | two sort keys ordered both ways are equal |
| ManageCategoriesPage.SortedCategoriesStable | frontend/src/pages/admin/ManageCategories.jsx:68-76 | categories with the same sort key keep their server order in the sorted table |
| ManageCategoriesPage.WrittenCompare | frontend/src/pages/admin/ManageCategories.jsx:69-75 | definition: the comparator as written, including the raw `sort_order` comparison before the `?? 0` default |
| ManageCategoriesPage.NormalizedSortOrder | frontend/src/pages/admin/ManageCategories.jsx:104 | definition: `Number.isNaN(parseInt(v)) ? 0 : parseInt(v)` on the stored number |
| ManageCategoriesPage.SortOrderInput | frontend/src/pages/admin/ManageCategories.jsx:248 | definition: `parseInt(value) \|\| 0` on the input text |
| ManageCategoriesPage.WrittenCompareWhenOrdersSet | frontend/src/pages/admin/ManageCategories.jsx:72-74 | where both sort orders are set, the written comparator equals the corrected one |
| ManageCategoriesPage.WrittenCompareInconsistent | frontend/src/pages/admin/ManageCategories.jsx:73 | the written comparator calls a category without a sort order equal to two categories with sort order 0 that it orders strictly |
| ManageCategoriesPage.NormalizedSortOrderKeeps | frontend/src/pages/admin/ManageCategories.jsx:104 | normalising an integer sort order keeps it |
| ManageCategoriesPage.Payload | frontend/src/pages/admin/ManageCategories.jsx:100-105 | the name is trimmed, an empty parent becomes null, and the flag and sort order are kept |
| ManageCategoriesPage.WithCreated | frontend/src/pages/admin/ManageCategories.jsx:108 | a returned category is prepended; without one the list is unchanged |
| ManageCategoriesPage.WithEdit | frontend/src/pages/admin/ManageCategories.jsx:143-153 | only the category with the matching id changes, in its name, parent, nav flag and sort order |
| ManageCategoriesPage.WithoutCategory | frontend/src/pages/admin/ManageCategories.jsx:175 | exactly the entries with another id remain |
| ManageCategoriesPage.WithoutCategoryKeepsOrder | frontend/src/pages/admin/ManageCategories.jsx:175 | a delete keeps the remaining categories in order |
| ManageCategoriesPage.EditParentOptions | frontend/src/pages/admin/ManageCategories.jsx:352-353 | the edit dialog offers exactly the top-level categories other than the one being edited |
| ManageCategoriesPage.ManageCategories.constructor | frontend/src/pages/admin/ManageCategories.jsx:43-60 | the create form starts as ('', '', true, 0) and both dialogs are closed |
| ManageCategoriesPage.ManageCategories.SetNewSortOrder | frontend/src/pages/admin/ManageCategories.jsx:248 | the sort-order input stores `parseInt(value) || 0` |
| ManageCategoriesPage.ManageCategories.SetNewCategoryName | frontend/src/pages/admin/ManageCategories.jsx:211-212 | the name input stores the typed text and nothing else changes |
| ManageCategoriesPage.ManageCategories.SetNewParentId | frontend/src/pages/admin/ManageCategories.jsx:220-221 | the parent select stores the chosen id, `''` for none |
| ManageCategoriesPage.ManageCategories.SetNewShowInNav | frontend/src/pages/admin/ManageCategories.jsx:238 | the navigation checkbox stores its checked state |
| ManageCategoriesPage.ManageCategories.SetEditName | frontend/src/pages/admin/ManageCategories.jsx:340 | while the dialog shows a category, the edited copy takes the typed name and keeps its id and other fields |
| ManageCategoriesPage.ManageCategories.SetEditParentId | frontend/src/pages/admin/ManageCategories.jsx:348 | the dialog's parent select stores the chosen id |
| ManageCategoriesPage.ManageCategories.SetEditShowInNav | frontend/src/pages/admin/ManageCategories.jsx:365 | the dialog's navigation checkbox stores its checked state |
| ManageCategoriesPage.ManageCategories.SetEditSortOrder | frontend/src/pages/admin/ManageCategories.jsx:374 | the dialog's sort-order input stores `parseInt(value) \|\| 0` |
| ManageCategoriesPage.ManageCategories.CreateCategory | frontend/src/pages/admin/ManageCategories.jsx:95-120 | nothing is sent for a blank name; otherwise the normalised payload is sent; a success prepends the returned category and resets the form to ('', '', true, 0); a failure changes nothing |
| ManageCategoriesPage.ManageCategories.ResetCreateForm | frontend/src/pages/admin/ManageCategories.jsx:109-112 | the create form is back at ('', '', true, 0) |
| ManageCategoriesPage.ManageCategories.OpenEditModal | frontend/src/pages/admin/ManageCategories.jsx:122-128 | the dialog opens with the category's parent, nav flag (default true) and sort order (default 0) |
| ManageCategoriesPage.ManageCategories.SaveEditedCategory | frontend/src/pages/admin/ManageCategories.jsx:130-163 | nothing is sent without a category or with a blank name; a success changes only the edited category and closes the dialog; a failure changes nothing |
| ManageCategoriesPage.ManageCategories.OpenDeleteModal | frontend/src/pages/admin/ManageCategories.jsx:165-168 | the dialog opens for that category |
| ManageCategoriesPage.ManageCategories.ConfirmDeleteCategory | frontend/src/pages/admin/ManageCategories.jsx:170-185 | a success removes exactly the entries with that id and closes the dialog; a failure changes nothing |
| AdminProductFormPage.NameRejected | frontend/src/pages/admin/AdminProductForm.js:159 | definition: the name is rejected when it is blank after `trim` |
| AdminProductFormPage.PriceRejected | frontend/src/pages/admin/AdminProductForm.js:163 | definition: the price is rejected when empty, not a number, or parsed to at most 0 |
| AdminProductFormPage.StockRejected | frontend/src/pages/admin/AdminProductForm.js:167 | definition: the stock is rejected when empty, not a number, or parsed to a negative integer |
| AdminProductFormPage.ParentRejected | frontend/src/pages/admin/AdminProductForm.js:172 | definition: the parent category is rejected when none is chosen |
| AdminProductFormPage.PriceRuleOnIntegers | frontend/src/pages/admin/AdminProductForm.js:163 | a decimal integer is accepted as a price exactly when it is positive |
| AdminProductFormPage.StockRuleOnIntegers | frontend/src/pages/admin/AdminProductForm.js:167 | a decimal integer is accepted as stock exactly when it is not negative |
| AdminProductFormPage.BlankPassesNumberRules | frontend/src/pages/admin/AdminProductForm.js:163-169 | a value of white space only passes both number rules, although both parses fail |
| AdminProductFormPage.FindCategory | frontend/src/pages/admin/AdminProductForm.js:60 | a found category is in the list with that id; none means no category has that id |
| AdminProductFormPage.IsChild | frontend/src/pages/admin/AdminProductForm.js:60-63 | definition: the product's category is found and has a parent |
| AdminProductFormPage.SplitCategory | frontend/src/pages/admin/AdminProductForm.js:63-71 | a child category loads as (its parent, itself), any other as (itself, '') |
| AdminProductFormPage.ResolveCategory | frontend/src/pages/admin/AdminProductForm.js:200 | the child when it is set, else the parent |
| AdminProductFormPage.SplitThenResolve | frontend/src/pages/admin/AdminProductForm.js:60-72 | loading a product and submitting it again gives back its category |
| AdminProductFormPage.ResolvedCategoryPresent | frontend/src/pages/admin/AdminProductForm.js:172-174 | once a parent is chosen, the submitted category is never empty |
| AdminProductFormPage.LoadedForm | frontend/src/pages/admin/AdminProductForm.js:65-72 | the form shows the product's fields, with the description defaulting to '' and the category split |
| AdminProductFormPage.DataOf | frontend/src/pages/admin/AdminProductForm.js:202-209 | the product data has the parsed price and stock, the resolved category and the image URL |
| AdminProductFormPage.LoadedStockAccepted | frontend/src/pages/admin/AdminProductForm.js:69 | a loaded product passes the stock rule exactly when its stock is not negative |
| AdminProductFormPage.AdminProductForm.constructor | frontend/src/pages/admin/AdminProductForm.js:13-27 | the form starts empty, with no errors, children or image |
| AdminProductFormPage.AdminProductForm.LoadProduct | frontend/src/pages/admin/AdminProductForm.js:52-87 | the form shows the loaded product and its preview, and a child category also loads its siblings |
| AdminProductFormPage.AdminProductForm.HandleChange | frontend/src/pages/admin/AdminProductForm.js:96-132 | a parent change clears the child and replaces the child list; other fields are set alone; only the changed field's error is cleared |
| AdminProductFormPage.AdminProductForm.HandleImageChange | frontend/src/pages/admin/AdminProductForm.js:134-149 | a file over 5 MB, or none, leaves the image state unchanged; otherwise it becomes the image and its preview |
| AdminProductFormPage.AdminProductForm.RemoveImage | frontend/src/pages/admin/AdminProductForm.js:151-154 | no image and an empty preview |
| AdminProductFormPage.AdminProductForm.ValidateForm | frontend/src/pages/admin/AdminProductForm.js:156-178 | each of the four rules sets its own message exactly when it fails, and the form is valid exactly when no message is set |
| AdminProductFormPage.AdminProductForm.HandleSubmit | frontend/src/pages/admin/AdminProductForm.js:180-209 | the errors shown are exactly those of the four rules, each with its message; nothing is sent for an invalid form; the image URL is the upload's for a new image, otherwise the preview; what is sent has a non-empty category and passes the rules |
| ProfilePage.EmailPattern | frontend/src/pages/Profile.jsx:41 | definition: `/\S+@\S+\.\S+/` matches somewhere: an `@` right after a non-space, then a non-empty run of non-spaces, then a `.` followed by a non-space |
| ProfilePage.AddressMatches | frontend/src/pages/Profile.jsx:41 | every `local@domain.tld` with non-empty parts and no white space matches the email pattern |
| ProfilePage.EmailPatternUnanchored | frontend/src/pages/Profile.jsx:41 | the pattern is unanchored: text around a match keeps it a match |
| ProfilePage.NoAtNoMatch | frontend/src/pages/Profile.jsx:41 | a string without '@' never matches |
| ProfilePage.IsEmpty | frontend/src/pages/Profile.jsx:75 | definition: the update holds neither an email nor a password pair, as `Object.keys(updateData).length === 0` |
| ProfilePage.Profile.constructor | frontend/src/pages/Profile.jsx:10-17 | the email starts as the user's and the password fields empty |
| ProfilePage.Profile.HandleChange | frontend/src/pages/Profile.jsx:25-34 | one field is set; its error, if set, becomes '' and the others stay |
| ProfilePage.Profile.ValidateForm | frontend/src/pages/Profile.jsx:36-59 | the email is checked only when changed; the three password rules apply independently, only when a new password is typed; valid exactly when no error is recorded |
| ProfilePage.Profile.HandleSubmit | frontend/src/pages/Profile.jsx:61-90 | the errors shown are exactly those the email and password rules find, each with its message, and none means a request whenever something changed; the request holds the email only when changed and the password pair only when a new password is typed; success clears the password fields and keeps the email |
| ProfilePage.Profile.ClearPasswords | frontend/src/pages/Profile.jsx:82-87 | the three password fields are empty |
| ProductDetailPage.HasThumbnail | frontend/src/pages/ProductDetail.js:137 | definition: `product?.thumbnail_url` is truthy: present and non-empty |
| ProductDetailPage.AllImages | frontend/src/pages/ProductDetail.js:135-144 | the thumbnail first when present, then the gallery in order; length is the gallery count plus one with a thumbnail |
| ProductDetailPage.ShowNavigation | frontend/src/pages/ProductDetail.js:486 | definition: the arrows are rendered only when there is more than one image |
| ProductDetailPage.OnlyFirstIsThumbnail | frontend/src/pages/ProductDetail.js:137-142 | only the first entry, and only with a thumbnail, is marked as the thumbnail |
| ProductDetailPage.GetAllImages | frontend/src/pages/ProductDetail.js:135-144 | the pushing loop builds exactly that carousel |
| ProductDetailPage.NextIndex | frontend/src/pages/ProductDetail.js:156 | the next index stays below the number of images |
| ProductDetailPage.PrevIndex | frontend/src/pages/ProductDetail.js:161 | the previous index stays below the number of images |
| ProductDetailPage.NextPrevInverse | frontend/src/pages/ProductDetail.js:154-162 | each arrow undoes the other |
| ProductDetailPage.NextCycles | frontend/src/pages/ProductDetail.js:154-157 | `k` presses of the next arrow from `i` land on `(i + k) mod n` |
| ProductDetailPage.NextCyclesBack | frontend/src/pages/ProductDetail.js:154-157 | `n` presses of the next arrow come back to the start |
| ProductDetailPage.CurrentImageUrl | frontend/src/pages/ProductDetail.js:211 | the image at the index, else the thumbnail, else the placeholder |
| ProductDetailPage.StarRatingAccepted | frontend/src/pages/ProductDetail.js:84-91 | a star rating from 1 to 5 passes the server's rating rule |
| ProductDetailPage.OutOfRangeLeftToServer | frontend/src/pages/ProductDetail.js:84 | the page refuses only a zero rating; any other rating outside [1, 5] is refused by the server instead |
| ProductDetailPage.ProductDetail.constructor | frontend/src/pages/ProductDetail.js:16-28 | quantity 1, first image, empty and hidden review form |
| ProductDetailPage.ProductDetail.HandleQuantityChange | frontend/src/pages/ProductDetail.js:127-132 | a step is taken exactly when it lands in [1, stock], so 1 ≤ quantity ≤ stock is kept when there is stock |
| ProductDetailPage.ProductDetail.HandleAddToCart | frontend/src/pages/ProductDetail.js:119-125 | nothing is added for a visitor who is not signed in; otherwise the product and a quantity of at least 1 |
| ProductDetailPage.ProductDetail.HandleImageSelect | frontend/src/pages/ProductDetail.js:146-148 | the chosen index is selected |
| ProductDetailPage.ProductDetail.HandleNextImage | frontend/src/pages/ProductDetail.js:154-157 | behind an arrow shown only for more than one image, the selection moves to the next index, with wrap-around |
| ProductDetailPage.ProductDetail.HandlePrevImage | frontend/src/pages/ProductDetail.js:159-162 | behind an arrow shown only for more than one image, the selection moves to the previous index, with wrap-around |
| ProductDetailPage.ProductDetail.ToggleReviewForm | frontend/src/pages/ProductDetail.js:361 | the "Write a Review" button flips whether the form is shown |
| ProductDetailPage.ProductDetail.CancelReviewForm | frontend/src/pages/ProductDetail.js:408 | "Cancel" hides the form |
| ProductDetailPage.ProductDetail.SetReviewRating | frontend/src/pages/ProductDetail.js:104-109 | the rating field is set |
| ProductDetailPage.ProductDetail.SetReviewComment | frontend/src/pages/ProductDetail.js:104-109 | the comment field is set |
| ProductDetailPage.ProductDetail.HandleReviewSubmit | frontend/src/pages/ProductDetail.js:76-102 | nothing is sent when not signed in or without a rating; a success resets the form to (0, '') and hides it; a failure keeps it |
| ProductDetailPage.ProductDetail.ResetReviewForm | frontend/src/pages/ProductDetail.js:93-94 | the review form is (0, '') and hidden |

## Left out

- User data joined into responses (`users` with its email in reviews and in the admin order list) is left out; the response keeps only the user's id. The inner join on `users` in the review listing is taken as always matching.
- The `!productId` and `!reviewId` checks (400) are not modelled: route parameters are never empty.
- `authenticateToken` and `requireAdmin` are treated as preconditions met by the caller.
- Rendering, styling, toasts, navigation, `setTimeout` redirects, loading flags other than the checkout's, and React hook timing are not modelled. So are the profile page's `useEffect` that copies the user's email into the form and its order list.
- `FileReader` is modelled as synchronous: a chosen file carries its data URL.
- Fetching lists (categories, parents, children, gallery images, reviews) is left out. Their results, or their failure as `None`, become parameters.
- Floating point is left out: `parseFloat` of prices, the 8% tax, `toFixed` and `Math.round` are exact in the model, over integers and reals.
- JsNumbers.NumberOf: models decimal literals and blank strings only. It does not model `Infinity`, hexadecimal, binary or octal literals, or numeric separators; such inputs count as `NaN`.
- JsNumbers.ParseFloat: the same restriction; a decimal exponent is read, `Infinity` is not.
- CheckoutPage.Checkout.ProceedToPayment: the `await clearCart()` after a successful order (frontend/src/pages/Checkout.jsx:73) is a call into the cart context, which is not part of this model. The server side of it, the cart lines deleted by `CreateOrder`, is modelled.
- A `NaN` from a failed parse is `None`.
- JsNumbers.ParseInt: `parseInt` is called without a radix, so text starting with `0x` or `0X` after the sign is read as hexadecimal. The model reads decimal digits only, so such text gives 0 where the source gives the hexadecimal value or `NaN`.
- Text.LowerChar: lowers the ASCII letters only; `toLowerCase` on other letters is not modelled.
- `localeCompare` is modelled as code-point lexicographic order, which is one fixed total order. Locale collation is not modelled.
- Strings are sequences of code points, so password length counts code points, not UTF-16 code units.
- Ratings the client sends as non-numbers (strings, booleans) are not modelled. A rating is a number or missing.
- OrderController.CreateOrder: the cart delete uses `.in('cart_id', id)` with a single id rather than a list. It is modelled as intended, deleting that cart's lines. Whether the client library accepts a scalar there depends on its version.
- Sorting.SortBy: as the reference for `ORDER BY created_at DESC` (backend/controllers/orderController.js:122 in GetMyOrders, backend/controllers/orderController.js:163 in GetAllOrders, backend/routes/reviews.js:30 in GetReviews) it fixes one order of ties, while the database may return ties in any order. The stability that `SortByStable` proves is claimed only for `Array.prototype.sort`.
- CheckoutPage.Prompt: the concrete messages for each field are defined, but they are not proved one by one. LabelOfTwoWords and LabelOfOneWord prove the general rule.
- ManageCategoriesPage.ById: states key membership and that each value has its key, not that the last category with an id wins.
- Whitespace-only price or stock: the rules of `validateForm` let such a value through, as `BlankPassesNumberRules` shows. The page renders both as `type="number"` inputs (frontend/src/pages/admin/AdminProductForm.js:300, 319), and browsers sanitise those inputs, so the value never occurs.
- Concurrent requests are not modelled: two requests racing on a cart or last-write-wins status updates. The source has no concurrency control to model.
- The `orders.users` join and `order_items.products` details in listings are not modelled. `OrderListing` holds the order and its lines only.
- The store's errors other than the ones each handler branches on are not modelled. The outer `catch` that answers 500 is modelled only where the code throws on a missing cart.

## Findings

| source | as written | input that shows it | evidently intended | confidence | as-written member | corrected member |
|---|---|---|---|---|---|---|
| frontend/src/pages/admin/ManageCategories.jsx:73 | `a.sort_order !== b.sort_order` compares the raw values, and only then subtracts after `?? 0`. A `null` and a `0` therefore count as different and then compare equal. The comparator is inconsistent, and the table's order depends on the sort implementation. | Three top-level categories: A with sort order `null` and name 'm', B with 0 and 'z', C with 0 and 'a'. Then A = B and A = C, but C < B. | Compare the sort orders after the `?? 0` default, so the order is a consistent lexicographic order on (parent name, sort order, name). | not executed | ManageCategoriesPage.WrittenCompareInconsistent | ManageCategoriesPage.SortedCategories |
