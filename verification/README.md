# Authentication service and shop server, modelled in Dafny

This project models two parts of one repository. Each part is modelled with the operations and properties listed below.

**The Flask authentication service.** It covers:

- the request schemas: the password-strength rule, the name rule, and the per-endpoint field lists whose failures are collected in field order;
- the `users` table row and its public view;
- the authentication service: hashing, token issuance, look-up, authentication, account creation, password change and deactivation;
- the HTTP routes: the JSON gate, the token gate, and the status each outcome maps to.

**The e-commerce shop.** It covers:

- the browser cart store;
- the cart, product and category documents with their virtuals and save hooks;
- the server's cart, order, review and admin controllers.

The controllers work on one `Shop` object holding the accounts, products and carts keyed by id, and the orders and reviews in insertion order. Every controller method keeps the store's invariant (`Shop.Valid`):

- one valid cart per user, with one line per product;
- unique order and review ids;
- one review per user and product;
- each review's helpful count equal to its number of distinct markers.

Each method also states the new contents of the collections it changes. Every other collection is stated unchanged.

## Modelling choices

- **Clocks and fresh ids.** Clock readings (`now`) and fresh document ids (`newId`) are parameters. A fresh id is required to be unused.
- **Password hash.** `HashPassword` is a scheme tag prefixed to the password. That is enough to prove the three facts the service relies on:
  - a password verifies against its own hash;
  - it does not verify against any other password's hash;
  - the hash is never the plaintext.
- **Tokens.** A token is its claims: subject, kind and expiry.
- **Email check.** `EmailStr` is a parameter `checkEmail`. It returns either the normalised address or the reason the text is refused. Normalising trims surrounding spaces, lower-cases the domain and drops a display name. The registration and login data carry the normalised address, so the duplicate check, the new row and the login look-up all use it.
- **JSON values.** A body field is a string or some other JSON value. A body is an object or some other JSON value; `null` is separate. A non-string field is reported as "Input should be a valid string", and its validator does not run. A body that is not an object fails its schema as a whole, with one detail line naming the schema (`AuthRoutes.NonObjectRefusedBySchema`).
- **Token lifetimes.** The routes read the configuration after `jwt.init_app(app)` (app.py:25). That call fills a missing lifetime with the token library's default: 15 minutes for access tokens, 30 days for refresh tokens (`AuthService.InitJwt`). So the service's own one-hour fallback is never used (`AuthService.ServiceFallbacksUnreached`).
- **Money.** Money is `real`, so there is no rounding.
- **Characters.** Character classes, `strip` and `toLowerCase` cover ASCII only.
- **Token errors.** A missing, expired or wrong-kind token gets 401 with the bodies of the application's token error handlers (app.py:30-40).
- **Password rule.** The password validator raises at the first rule that fails, so `"weak"` is refused for its length alone (`Schemas.WeakPasswordRejectedForLengthOnly`).
- **Refresh of a missing user.** `/refresh` answers 404 `user_not_found` for a user who is missing or inactive (auth/__init__.py:171-175).
- **Token expiry.** A token is expired from the second `exp` itself: it is accepted only while `now < exp`, as the token library decides.
- **Schemas not modelled.** The order, review and user schemas are not part of this model. The model assumes these defaults:
  - a new order starts with status "pending", payment "pending" and an empty history;
  - a new review has no helpful marks;
  - the review schema's approval default is a parameter.
- **Payment status.** The order field the revenue aggregate filters on (`paymentInfo.status`) is modelled as `Order.paymentStatus`.
- **Save validation.** Validation on save is modelled for the cart schema only: quantities of at least 1 and a discount of at least 0. A refused save answers 500 and leaves the stored cart as it was.
- **Negative order totals.** An order's total can fall below zero. A coupon's discount stays on the cart after lines are removed, and `createOrder` subtracts it without clamping. `OrderController.StaleDiscountNegativeTotal` exhibits this.

## Model

| member | source | states |
|---|---|---|
| Schemas.Any | schemas.py:16-21 | true exactly when some character of the string satisfies the predicate |
| Schemas.StripLeading | schemas.py:27-29 | removes exactly the leading whitespace: a suffix whose dropped characters are all whitespace and whose first character is not |
| Schemas.StripTrailing | schemas.py:27-29 | removes exactly the trailing whitespace: a prefix whose dropped characters are all whitespace and whose last character is not |
| Schemas.Strip | schemas.py:27-29 | the result has no whitespace at either end and is empty exactly when the input is all whitespace |
| Schemas.StripOfStripped | schemas.py:29 | a string with no whitespace at either end is its own strip |
| Schemas.StripIdempotent | schemas.py:27-29 | stripping twice equals stripping once |
| Schemas.ValidatePassword | schemas.py:13-22 | accepts unchanged exactly the passwords of at least 8 characters with an uppercase letter, a lowercase letter and a digit; otherwise reports the first failing rule, in the order length, uppercase, lowercase, digit |
| Schemas.ValidateNewPassword | schemas.py:71-80 | the password-change rule gives the same outcome as the registration rule on every input |
| Schemas.ValidateName | schemas.py:26-29 | accepts exactly the names of at least 2 characters once stripped and returns the stripped name; otherwise the length message |
| Schemas.ValidateNameIdempotent | schemas.py:26-29 | an accepted name is accepted again, unchanged |
| Schemas.PlainField | schemas.py:31-33 | a field holding a string passes its text; a missing field is reported as required and a non-string one as not a valid string, under the field's own name |
| Schemas.EmailField | schemas.py:6 | succeeds exactly when the field holds a string the address check accepts, and yields the normalised address, not the text as sent; a refused address is reported as "value is not a valid email address: " followed by the reason, and a missing or non-string field as for a plain field |
| Schemas.PasswordField | schemas.py:11-22 | succeeds exactly when the field holds a string that passes the rule; a rule failure is reported as "Value error, " followed by the rule's message; the rule never sees a missing or non-string field |
| Schemas.NameField | schemas.py:24-29 | succeeds exactly when the field holds a string at least 2 characters long once stripped, and yields the stripped value; otherwise the name rule's message, or the plain-field failure when the value is missing or not a string |
| Schemas.Errors | schemas.py:5-29 | the collected field failures: empty exactly when every field passed, every failing field's error is in it, and each entry is some field's failure (exact order in `ErrorsOfConcat`) |
| Schemas.ErrorsOfOne | schemas.py:5-29 | one field reports exactly its own failure: `[e]` for a failure `e`, nothing for a success |
| Schemas.ErrorsOfConcat | schemas.py:5-29 | the failures of consecutive fields are those of the first fields followed by those of the rest, so every failure is reported once, in field order |
| Schemas.ErrorsOfTwo | schemas.py:31-33 | two fields' failures, the first field's first |
| Schemas.ErrorsOfFour | schemas.py:5-9 | four fields' failures, in field order |
| Schemas.NotAnObject | auth/__init__.py:42 | a body that is not an object is one failure for the body as a whole, with an empty location |
| Schemas.ValidateRegistration | schemas.py:5-29 | accepts exactly when all four fields pass, yielding the normalised email, the password unchanged and the names stripped; otherwise the failures of email, password, first_name and last_name, each failing field's once and in that order |
| Schemas.ValidateLogin | schemas.py:31-33 | accepts exactly when the email passes the address check and the password is a string, yielding the normalised email; there is no strength rule; otherwise the failures of email and password, in that order |
| Schemas.ValidateRefreshRequest | schemas.py:57-58 | accepts exactly when `refresh_token` holds a string and yields it; otherwise that field's single failure |
| Schemas.ValidatePasswordChange | schemas.py:65-80 | accepts exactly when the current password is a string and the new one is a strong string; otherwise the failures of current_password and new_password, each failing field's once and in that order |
| Schemas.TestPasswordAccepted | schemas.py:13-22 | "TestPassword123" is accepted unchanged |
| Schemas.WeakPasswordRejectedForLengthOnly | schemas.py:14-15 | "weak" is refused for its length alone |
| Schemas.OneLetterNamesRejected | schemas.py:27-28 | the names "J" and "D" are refused |
| Schemas.OnlyPasswordReported | schemas.py:5-22 | when only the password fails, the registration reports that one failure and nothing else |
| Schemas.WeakPasswordRegistration | schemas.py:5-29 | the registration with password "weak" and names "John" and "Doe" reports exactly one failure, the password's length |
| Schemas.ShortPasswordOnly | schemas.py:5-22 | a registration whose email is accepted, whose names pass and whose password is under 8 characters fails with the length rule for the password and nothing else |
| Schemas.StrongPasswordField | schemas.py:11-22 | the password field passes exactly when it holds a string meeting the password policy, and yields it unchanged |
| Schemas.NamePasses | schemas.py:24-29 | a name of at least 2 characters with no whitespace at either end passes the name rule unchanged |
| Schemas.NonStringReportedAsSuch | schemas.py:5-9 | a registration whose password and first name are JSON values other than strings reports both as not valid strings |
| Models.NewUser | models.py:9-17 | the row `create_user` inserts: the given id, email, hash and names, active, unverified, both timestamps at creation (proved in `NewUserDefaults`) |
| Models.NewUserDefaults | models.py:9-17 | a new row is active and unverified, and stores the given email and hash |
| Models.ToDict | models.py:22-32 | the public view carries every column except the hash, with each timestamp absent exactly when it is absent in the row |
| Models.ToDictHidesHash | models.py:22-32 | the public view does not depend on the password hash |
| Models.FirstMissing | models.py:36-38 | absent exactly when every required field is present; otherwise the first missing field in checking order |
| Models.FromDict | models.py:34-44 | builds from the four values exactly when all are present; otherwise names the first missing of email, password_hash, first_name, last_name |
| AuthService.HashPassword | auth_service.py:14-16 | the hash is longer than the password |
| AuthService.VerifyPassword | auth_service.py:18-20 | a password matches a stored hash exactly when the hash is that password's (proved in `VerifyOwnHash` and `VerifyRejectsOtherPasswords`) |
| AuthService.VerifyOwnHash | auth_service.py:14-20 | a password verifies against its own hash, and the hash is not the plaintext |
| AuthService.VerifyRejectsOtherPasswords | auth_service.py:18-20 | a password never verifies against another password's hash |
| AuthService.CheckToken | auth/__init__.py:197-199 | a token is accepted exactly when the clock is before its expiry and it is of the required kind, and then yields its subject; at or after `exp` it is refused as expired |
| AuthService.CreateAccessToken | auth_service.py:51-54 | an access token for the user, expiring the configured lifetime after issue (proved in `IssuedTokensCheck` and `ShippedLifetimes`) |
| AuthService.CreateRefreshToken | auth_service.py:56-59 | a refresh token for the user, expiring the configured lifetime after issue (proved in `IssuedTokensCheck` and `ShippedLifetimes`) |
| AuthService.IssuedTokensCheck | auth_service.py:51-59 | issued access and refresh tokens yield their user until their lifetime elapses, are expired from then on, and are refused where the other kind is required |
| AuthService.AccessTtl | auth_service.py:53 | the configured access lifetime, or one hour when none is configured |
| AuthService.RefreshTtl | auth_service.py:58 | the configured refresh lifetime, or thirty days when none is configured |
| AuthService.InitJwt | app.py:25 | after `init_app` both lifetimes are set, and a configured lifetime is kept as it is |
| AuthService.ServiceFallbacksUnreached | app.py:25 | once `init_app` has run, a lifetime missing from the configuration is the library's (15 minutes for access), never the service's one-hour fallback; running `init_app` again changes nothing |
| AuthService.ShippedLifetimes | config.py:8-9 | with the shipped configuration, access tokens live 3600 s and refresh tokens 2592000 s; `init_app` leaves that configuration as it is; with neither key configured they live 900 s and 2592000 s |
| AuthService.FindEmail | auth_service.py:26-28 | absent exactly when no row has the email; otherwise the first row with it |
| AuthService.FindId | auth_service.py:61-64 | found exactly when some row has the id, and then that row |
| AuthService.WithPassword | auth_service.py:73-75 | only the changed row's hash differs, and the new password verifies against it |
| AuthService.ChangeLocksOutOldPassword | auth_service.py:66-75 | after a change, the new password verifies and a different old password no longer does |
| AuthService.Deactivated | auth_service.py:84-86 | only the row's active flag changes, and it becomes false |
| AuthService.DeactivateIdempotent | auth_service.py:77-86 | deactivating twice equals deactivating once |
| AuthService.UpdatesKeepTableWellFormed | auth_service.py:66-86 | a password change and a deactivation keep ids in place and emails unique |
| AuthService.UserTable.GetUserById | auth_service.py:61-64 | found exactly when a row has the id, and then that row |
| AuthService.UserTable.AuthenticateUser | auth_service.py:43-49 | a user is returned exactly when a row with the email has a hash the password verifies against, whether or not the account is active |
| AuthService.UserTable.CreateUser | auth_service.py:22-41 | a stored email is refused with the table unchanged; otherwise exactly one active, unverified row with the hashed password is appended under the next id |
| AuthService.UserTable.ChangePassword | auth_service.py:66-75 | succeeds exactly for an existing id whose current password verifies, and then stores the new hash; otherwise the table is unchanged |
| AuthService.UserTable.DeactivateUser | auth_service.py:77-86 | succeeds exactly for an existing id, and clears that row's active flag |
| AuthRoutes.DecodeJson | auth/__init__.py:26-39 | a non-JSON request gets `invalid_request`; a `null` body gets "Invalid JSON"; every decoded value but `null` goes on to the schema, objects and non-objects alike; every refusal is a 400 |
| AuthRoutes.Detail | auth/__init__.py:50-51 | the location, then ": ", then the message |
| AuthRoutes.Details | auth/__init__.py:48-51 | one detail line per reported failure |
| AuthRoutes.FormatErrors | auth/__init__.py:48-51 | the loop gives, in order, one `"field: message"` line per failure |
| AuthRoutes.SchemaOutcome | auth/__init__.py:42-56 | a schema failure becomes a 400 `validation_error` listing the failures' details; a success passes the value through |
| AuthRoutes.CheckSchema | auth/__init__.py:42-56 | the gate's detail loop produces the same response as its specification |
| AuthRoutes.NonJsonRefusedFirst | auth/__init__.py:26-30 | a non-JSON request is refused with `invalid_request` on every route, before any schema runs |
| AuthRoutes.RootDetail | auth/__init__.py:50-51 | a failure of the body as a whole is detailed as ": " followed by the message |
| AuthRoutes.NonObjectRefusedBySchema | auth/__init__.py:42-56 | a JSON body that is not an object gets 400 `validation_error` with the single detail ": Input should be a valid dictionary or instance of " and the schema's name, on all four routes |
| AuthRoutes.Authorize | app.py:30-40 | passes exactly an unexpired token of the required kind, yielding its subject; otherwise 401, `authorization_required` exactly for a missing token and `token_expired` exactly for an expired one |
| AuthRoutes.Register | auth/__init__.py:67-122 | gate failures are returned as they are; a taken email gets 409 with the table unchanged; otherwise one row is appended and the response is 201 with both tokens and the public view |
| AuthRoutes.Login | auth/__init__.py:124-159 | wrong email and wrong password get the same 401; a correct password on an inactive account gets 403; otherwise 200 with both tokens |
| AuthRoutes.RefreshAccessToken | auth/__init__.py:161-195 | the token gate runs before the body gate; a 200 carries a new access token for the token's subject only; a 404 means the user is missing or inactive |
| AuthRoutes.RefreshOutcome | auth/__init__.py:168-189 | 200 exactly when the token's user exists and is active, with a new access token for that user and its lifetime; otherwise 404 `user_not_found` |
| AuthRoutes.GetCurrentUserAsWritten | auth/__init__.py:197-217 | the token gate's own 401 response without a valid access token; 404 for an unknown user; 500 `internal_error` for every user that exists, so never 200 |
| AuthRoutes.GetCurrentUser | auth/__init__.py:197-217 | the corrected handler: the token gate's own 401 response without a valid access token; 404 for an unknown user; otherwise 200 with the user's public view, whether active or not |
| AuthRoutes.ChangePassword | auth/__init__.py:219-246 | 401 without a token; gate failures are returned; the hash changes exactly when the current password verifies; anything but 200 leaves the table unchanged |
| AuthRoutes.Logout | auth/__init__.py:248-260 | 200 exactly when the token passes the gate, otherwise 401 |
| AuthRoutes.LogoutRevokesNothing | auth/__init__.py:250-254 | after a logout the same access token is still accepted until it expires |
| CartLines.Subtotal | server/models/Cart.js:47-49 | price times quantity summed over the lines (its laws are `AppendLine`, `ReplaceLine`, `SumsOfConcat` and `SubtotalNonNegative`) |
| CartLines.ItemCount | server/models/Cart.js:55-57 | the quantities summed over the lines (its laws are `AppendLine`, `ReplaceLine`, `SumsOfConcat` and `ItemCountAtLeastLines`) |
| CartLines.FindIndex | client/src/store/cartStore.ts:27-29 | -1 exactly when no line holds the product; otherwise the first line that does |
| CartLines.AddLine | client/src/store/cartStore.ts:25-36 | a new product's line is appended; otherwise the first line for the product gains the added quantity, and the length and every other line are kept |
| CartLines.RemoveProduct | client/src/store/cartStore.ts:37-40 | no line for the product remains, and every other line is kept |
| CartLines.SetQuantity | client/src/store/cartStore.ts:41-46 | every line for the product takes the quantity; every other line is kept as it was |
| CartLines.AppendLine | client/src/store/cartStore.ts:48-51 | appending a line adds its price times quantity to the total and its quantity to the count |
| CartLines.ReplaceLine | client/src/store/cartStore.ts:48-51 | replacing a line changes both sums by the new line's share less the old line's |
| CartLines.SumsOfConcat | client/src/store/cartStore.ts:48-51 | both sums over a concatenation are the sums of the parts |
| CartLines.ItemCountAtLeastLines | server/models/Cart.js:55-57 | with quantities of at least 1 the item count is at least the number of lines |
| CartLines.SubtotalNonNegative | server/models/Cart.js:47-49 | non-negative prices and quantities give a non-negative subtotal |
| CartLines.EmptySums | client/src/store/cartStore.ts:47-51 | an empty cart totals 0 with 0 items |
| CartLines.AddLineItemCount | client/src/store/cartStore.ts:25-36 | adding raises the item count by the added quantity, whether merged or appended |
| CartLines.MergeSubtotal | client/src/store/cartStore.ts:31-33 | raising one line's quantity raises the total by the added quantity at that line's price (the merge case of adding) |
| CartLines.AddLineKeepsUnique | client/src/store/cartStore.ts:25-36 | adding keeps at most one line per product |
| CartLines.RemoveAbsent | client/src/store/cartStore.ts:37-40 | removing a product that no line holds changes nothing |
| CartLines.RemoveUnique | client/src/store/cartStore.ts:37-40 | with one line per product, removing cuts out exactly that product's line |
| CartLines.RemoveKeepsUnique | client/src/store/cartStore.ts:37-40 | removing keeps at most one line per product |
| CartLines.SetQuantityKeepsUnique | client/src/store/cartStore.ts:41-46 | setting a quantity keeps at most one line per product |
| CartLines.SetQuantityUnique | client/src/store/cartStore.ts:41-46 | with one line per product, setting a quantity rewrites only that line, and the count changes by the difference |
| CartStore.CartStore.constructor | client/src/store/cartStore.ts:24 | the store starts with no lines |
| CartStore.CartStore.GetTotal | client/src/store/cartStore.ts:48-49 | the store's total is the lines' subtotal, the same sum the server's cart computes |
| CartStore.CartStore.GetItemCount | client/src/store/cartStore.ts:50-51 | the store's count is the lines' item count; `AddItem` and `UpdateQuantity` state how it moves |
| CartStore.CartStore.AddItem | client/src/store/cartStore.ts:25-36 | the lines become the merge of the old lines and the item; the count grows by the item's quantity; one line per product is kept |
| CartStore.CartStore.RemoveItem | client/src/store/cartStore.ts:37-40 | the product's line is cut out and the others keep their order; an absent product changes nothing |
| CartStore.CartStore.UpdateQuantity | client/src/store/cartStore.ts:41-46 | only the product's line takes the quantity, and the count changes by the difference |
| CartStore.CartStore.ClearCart | client/src/store/cartStore.ts:47 | no lines remain, so the total and the count are 0 |
| ProductModel.FinalPrice | server/models/Product.js:133-138 | without a positive discount the list price; with a discount in 0..100 on a non-negative price, a price between 0 and the list price |
| ProductModel.InStock | server/models/Product.js:141-143 | in stock exactly when the stock is above 0 (within the schema's bounds: not zero, by `InStockUnlessZero`) |
| ProductModel.InStockUnlessZero | server/models/Product.js:141-143 | a product within the schema's bounds is out of stock exactly at stock 0 |
| ProductModel.NewProduct | server/models/Product.js:48-102 | a new product keeps the given name, price and stock; it has a final price equal to the price, no rating, no reviews, nothing sold, and is active; it is within the schema bounds when price and stock are non-negative |
| ProductModel.SchemaValid | server/models/Product.js:48-102 | the schema's bounds: price and stock at least 0, discount within 0..100, average rating within 0..5 (proved for new products in `NewProductValid` and for rating averages in `ReviewController.StarRatingsKeepAverageValid`) |
| ProductModel.NewProductValid | server/models/Product.js:48-102 | the schema defaults satisfy the bounds, leave the final price at the list price, and count as in stock exactly when stock is positive |
| ProductModel.FullDiscountIsFree | server/models/Product.js:133-138 | a 100 percent discount gives a final price of 0 |
| ProductModel.FinalPriceMonotone | server/models/Product.js:133-138 | for a non-negative price, a larger discount never gives a higher final price |
| CategoryModel.LowerChar | server/models/Category.js:50 | upper-case ASCII letters become lower-case; every other character is kept |
| CategoryModel.ToLower | server/models/Category.js:50 | each character is lower-cased in place, keeping the length |
| CategoryModel.SkipRun | server/models/Category.js:51 | drops exactly the leading run of characters outside a-z and 0-9 |
| CategoryModel.Dasherize | server/models/Category.js:51 | the result uses only a-z, 0-9 and the dash |
| CategoryModel.DasherizeShape | server/models/Category.js:51 | a non-empty input gives a non-empty result that keeps a leading slug character, and no two dashes are adjacent |
| CategoryModel.TrimDashes | server/models/Category.js:52 | keeps the alphabet, and on a string without double dashes leaves no dash at either end |
| CategoryModel.Slugify | server/models/Category.js:49-52 | a slug uses only a-z, 0-9 and single dashes, with no dash at either end |
| CategoryModel.PreSave | server/models/Category.js:47-55 | a modified name sets the slug to the name's slug; otherwise the slug is left as it was |
| CategoryModel.DasherizeOfSlugForm | server/models/Category.js:51 | a string of slug characters without double dashes passes the dash replacement unchanged |
| CategoryModel.LowerOfSlug | server/models/Category.js:50 | lower-casing leaves a slug unchanged |
| CategoryModel.SlugifyIdempotent | server/models/Category.js:49-52 | the slug of a slug is the slug itself |
| CategoryModel.SlugChars | server/models/Category.js:50-51 | the letters and digits of a string, in order, at most as many as its characters |
| CategoryModel.SlugCharsOfConcat | server/models/Category.js:50-51 | the letters and digits of a concatenation are those of each part, in order |
| CategoryModel.SlugCharsNonEmpty | server/models/Category.js:50-51 | a string holding a letter or digit keeps at least one |
| CategoryModel.SkipRunKeepsSlugChars | server/models/Category.js:51 | the run a dash replaces holds no letter or digit |
| CategoryModel.DasherizeKeepsSlugChars | server/models/Category.js:51 | the dash replacement keeps every letter and digit, in order, and adds none |
| CategoryModel.TrimDashesKeepsSlugChars | server/models/Category.js:52 | trimming the edge dashes keeps every letter and digit |
| CategoryModel.SlugifyKeepsLetters | server/models/Category.js:49-52 | the slug's letters and digits are exactly the lower-cased name's, in order |
| CategoryModel.AlphanumericGivesSlug | server/models/Category.js:49-52 | a name holding an ASCII letter or digit has a non-empty slug |
| CategoryModel.NoAlphanumericNoSlug | server/models/Category.js:49-52 | a name without ASCII letters or digits gives the empty slug |
| CartModel.Cart.Subtotal | server/models/Cart.js:47-49 | the cart's subtotal is the lines' subtotal |
| CartModel.Cart.ItemCount | server/models/Cart.js:55-57 | the cart's item count is the lines' item count |
| CartModel.Cart.Total | server/models/Cart.js:51-53 | the subtotal less the discount, clamped at 0: never negative and never below the difference |
| CartModel.Cart.SchemaValid | server/models/Cart.js:9-14 | the save validation: every line's quantity at least 1 and the discount at least 0 (its consequences for the total are `TotalBounds`) |
| CartModel.EmptyCart | server/models/Cart.js:37-41 | a new cart belongs to its user, passes validation, and has subtotal, total and item count 0 |
| CartModel.TotalBounds | server/models/Cart.js:47-57 | a valid cart with non-negative prices totals between 0 and its subtotal, its subtotal with no discount, and counts at least one item per line |
| CartModel.AppendToCart | server/models/Cart.js:47-57 | appending a line raises the subtotal by the line's total and the count by its quantity |
| ShopDb.FindById | server/controllers/orderController.js:38-46 | absent exactly when no document has the id; otherwise a position holding a document with it |
| ShopDb.AddStatusHistory | server/controllers/orderController.js:184 | one entry with the status and note is appended to the history; earlier entries and every other field are kept |
| CartController.CartOrEmpty | server/controllers/cartController.js:45-48 | the user's stored cart, or a new valid empty cart for the user |
| CartController.GetCart | server/controllers/cartController.js:4-24 | 200 with the user's cart, which is created empty and stored when missing |
| CartController.AddToCart | server/controllers/cartController.js:26-81 | 404 for an unknown product and 400 when stock is below the requested quantity (default 1), both changing nothing; otherwise the line is merged or appended at the final price, giving 200, or 500 when the save refuses it (the created empty cart stays) |
| CartController.SetLineQuantity | server/controllers/cartController.js:103-119 | 500 for a vanished product or a missing quantity; 400 when stock is short; otherwise that line alone takes the quantity, giving 200, or 500 when it is below 1 |
| CartController.SubdocumentById | server/controllers/cartController.js:95 | absent exactly when no subdocument carries the `_id`; otherwise one that does |
| CartController.LineIds | server/models/Cart.js:23 | one (absent) `_id` per line |
| CartController.UpdateCartItemAsWritten | server/controllers/cartController.js:83-127 | every request answers 404 and changes nothing |
| CartController.HeldLineUnreachableById | server/controllers/cartController.js:95-101 | a line the cart holds is found by its product id, but by no `_id` |
| CartController.UpdateCartItem | server/controllers/cartController.js:83-127 | 404 without a cart or a line for the product; 200 exactly for a held line and a quantity from 1 to the stock, setting that quantity; anything but 200 leaves the carts unchanged |
| CartController.RemoveFromCart | server/controllers/cartController.js:129-158 | 404 without a cart; otherwise 200, with every line for the product removed and the rest kept |
| CartController.ClearCart | server/controllers/cartController.js:160-187 | 404 without a cart; otherwise 200, with no lines, no coupon, discount 0, and a total and count of 0 |
| CartController.ApplyCoupon | server/controllers/cartController.js:189-219 | 404 without a cart; otherwise the code is stored and the discount set to a tenth of the subtotal, whatever the code, giving 200, or 500 with the cart unchanged when a negative subtotal makes the discount fail validation |
| CartController.CouponTotal | server/controllers/cartController.js:203-204 | after a coupon, a valid cart with non-negative prices totals nine tenths of its subtotal |
| OrderController.Adjust | server/controllers/orderController.js:129-131 | one product's stock and sold move by the given amounts, every other field and every other product is unchanged, and an unknown product changes nothing |
| OrderController.Reserve | server/controllers/orderController.js:127-132 | each line in turn takes its quantity off its product's stock and adds it to sold; an unknown product is skipped (net effect in `ReserveEffect`) |
| OrderController.Release | server/controllers/orderController.js:186-191 | each line in turn puts its quantity back on its product's stock and takes it off sold; an unknown product is skipped (net effect in `ReleaseEffect`) |
| OrderController.ReserveEffect | server/controllers/orderController.js:127-132 | placing keeps the set of products and moves each one's stock down and sold count up by the quantity ordered of it |
| OrderController.ReleaseEffect | server/controllers/orderController.js:186-191 | cancelling keeps the set of products and moves each one's stock up and sold count down by the quantity ordered of it |
| OrderController.CancelRestores | server/controllers/orderController.js:186-191 | cancelling right after placing restores every product exactly |
| OrderController.StockPlusSoldConserved | server/controllers/orderController.js:128-131 | placing leaves every product's stock plus sold unchanged |
| OrderController.QuantityOfAbsent | server/controllers/orderController.js:128-131 | a product no line holds is ordered in quantity 0 |
| OrderController.QuantityOfUnique | server/controllers/orderController.js:128-131 | with one line per product, the quantity ordered of a product is its line's quantity |
| OrderController.StockCheck | server/controllers/orderController.js:84-92 | 0 exactly when every line's product exists with enough stock; 500 exactly when the first failing line's product is gone; 400 exactly when the first failing line asks more than the stock, so always 400 when every product exists |
| OrderController.FirstFailureShift | server/controllers/orderController.js:85-92 | past a passing first line, the first failing line of the cart is the first failing line of the rest |
| OrderController.MissingShift | server/controllers/orderController.js:85-92 | past a passing first line, the first failure is a vanished product exactly when it is so for the rest |
| OrderController.ShortShift | server/controllers/orderController.js:85-92 | past a passing first line, the first failure is short stock exactly when it is so for the rest |
| OrderController.PassBeforeShift | server/controllers/orderController.js:85-92 | past a passing first line, every line before the k-th passes exactly when every line of the rest before the (k-1)-th does |
| OrderController.ReserveKeepsStockNonNegative | server/controllers/orderController.js:84-132 | with one line per product and a passed stock check, placing leaves no stock negative |
| OrderController.Shipping | server/controllers/orderController.js:97 | free exactly above a subtotal of 50, otherwise 5 |
| OrderController.PricingOf | server/controllers/orderController.js:94-99 | the tax is a tenth of the subtotal, the total is subtotal plus tax plus shipping less discount, and shipping is free exactly above 50 |
| OrderController.PlacedOrder | server/controllers/orderController.js:101-125 | the order copies the cart's user and lines, bills the shipping address unless a billing address is given, and starts pending with no history |
| OrderController.CheckStock | server/controllers/orderController.js:85-92 | the loop answers what the stock check specifies |
| OrderController.ReserveStock | server/controllers/orderController.js:127-132 | the loop leaves the products as placing specifies |
| OrderController.ReleaseStock | server/controllers/orderController.js:186-191 | the loop leaves the products as cancelling specifies |
| OrderController.CreateOrder | server/controllers/orderController.js:69-152 | 400 without a cart or with an empty one; the stock check's failure at the first failing line; each changing nothing; otherwise 201, the order is appended, stock is reserved, and the cart is emptied |
| OrderController.StaleDiscountNegativeTotal | server/controllers/orderController.js:95-99 | a cart that had a coupon applied before losing a line can price an order below zero |
| OrderController.Cancelled | server/controllers/orderController.js:181-184 | the order is cancelled with its time and reason, one history entry is appended, and it can no longer be cancelled |
| OrderController.Cancellable | server/controllers/orderController.js:174 | a cancelled order cannot be cancelled again; a pending or processing one can |
| OrderController.CancelOrder | server/controllers/orderController.js:154-207 | 404 unknown, 403 not the owner, 400 shipped, delivered or cancelled, each changing nothing; otherwise 200, the order is cancelled and its stock released |
| OrderController.GetOrderById | server/controllers/orderController.js:36-67 | succeeds exactly for a known order that the requester owns or that an admin asks for; 404 exactly for an unknown id, otherwise 403 |
| ReviewController.ReviewsOf | server/controllers/reviewController.js:75 | exactly the stored reviews of the product |
| ReviewController.RatingSumBounds | server/controllers/reviewController.js:76 | ratings within lo..hi sum to between lo and hi times their number |
| ReviewController.Mean | server/controllers/reviewController.js:76 | the ratings' sum over their number, for a non-empty list (bounds in `MeanBounds`) |
| ReviewController.MeanBounds | server/controllers/reviewController.js:76 | the mean of ratings within lo..hi lies within lo..hi |
| ReviewController.StarRatingsKeepAverageValid | server/controllers/reviewController.js:74-79 | ratings of 1 to 5 keep the product's average within the schema's 0..5 |
| ReviewController.ApprovedNewestFirst | server/controllers/reviewController.js:8-13 | exactly the approved reviews of the product (order and multiplicity in `ApprovedNewestFirstIsReversed`) |
| ReviewController.ApprovedOnly | server/controllers/reviewController.js:8-11 | the approved reviews in stored order, no more of them than there were reviews |
| ReviewController.Reversed | server/controllers/reviewController.js:13 | a reordering of the same length |
| ReviewController.ApprovedNewestFirstIsReversed | server/controllers/reviewController.js:8-13 | the listing is the product's approved reviews in reverse stored order, which is creation order: each review once, the most recent first |
| ReviewController.ApprovedOnlyAppend | server/controllers/reviewController.js:8-11 | a review appended to the stored list is appended to the approved list exactly when it is approved |
| ReviewController.ReversedAppend | server/controllers/reviewController.js:13 | the review stored last comes first in reverse order |
| ReviewController.PageCount | server/controllers/reviewController.js:25 | the least number of pages of `limit` entries that holds them all, 0 exactly for none |
| ReviewController.PageExists | server/controllers/reviewController.js:14-25 | a page is within the page count exactly when it starts before the last entry |
| ReviewController.GetProductReviews | server/controllers/reviewController.js:4-36 | counts the approved reviews and their pages; the page is the `limit` entries of the newest-first listing that start after the skipped pages (fewer on the last page), non-empty exactly when it is within the page count |
| ReviewController.HasReviewed | server/controllers/reviewController.js:52-55 | true exactly when one of the product's reviews is the user's |
| ReviewController.CreateReview | server/controllers/reviewController.js:38-97 | 404 for an unknown product and 400 for a second review by the same user, both changing nothing; otherwise 201, the review is appended and the product's rating becomes the count and mean of all its reviews, with the id appended to its list |
| ReviewController.OrRating | server/controllers/reviewController.js:120 | a given non-zero rating replaces the old one; a missing or zero rating keeps it |
| ReviewController.OrText | server/controllers/reviewController.js:121-122 | a given non-empty text replaces the old one; a missing or empty text keeps it |
| ReviewController.Edited | server/controllers/reviewController.js:118-123 | an edit never changes the review's id, product, author, approval or helpful marks |
| ReviewController.EditedKeepsFalsy | server/controllers/reviewController.js:120-123 | omitted, zero and empty fields keep the old values; supplied truthy ones replace them, and an images array always replaces |
| ReviewController.UpdateReview | server/controllers/reviewController.js:99-147 | 404 unknown, 403 not the author, both changing nothing; otherwise 200, the review is edited and only the product's average is recomputed over its reviews |
| ReviewController.Pull | server/controllers/reviewController.js:179 | removes every occurrence of the id and keeps every other id |
| ReviewController.AppendKeepsInvariants | server/controllers/reviewController.js:51-72 | storing a fresh review, with no helpful marks, by a user who has not reviewed that product keeps ids unique, one review per user and product, and helpful counts consistent |
| ReviewController.ReviewsOfAppend | server/controllers/reviewController.js:74 | right after a review is stored it is the last of its product's reviews, after all the earlier ones in order |
| ReviewController.EditKeepsInvariants | server/controllers/reviewController.js:119-124 | editing rating, title, comment or images keeps ids unique, one review per user and product, and helpful counts consistent |
| ReviewController.CutKeepsInvariants | server/controllers/reviewController.js:168 | deleting a review keeps ids unique, one review per user and product, and helpful counts consistent |
| ReviewController.WithoutReview | server/controllers/reviewController.js:170-180 | the product's count becomes the number of remaining reviews, its average their mean (0 for none), and the id leaves its list; nothing else changes |
| ReviewController.DeleteReview | server/controllers/reviewController.js:149-193 | 404 unknown, 403 unless author or admin, both changing nothing; otherwise 200, the review is removed and its product's rating recomputed |
| ReviewController.MarkHelpful | server/controllers/reviewController.js:195-230 | 404 unknown and 400 when this user already marked it, both changing nothing; otherwise 200, one more mark with the user recorded |
| AdminController.Toggled | server/controllers/adminController.js:162 | the active flag is negated and the role kept |
| AdminController.ToggleTwice | server/controllers/adminController.js:162 | toggling twice gives the account back |
| AdminController.ToggleUserStatus | server/controllers/adminController.js:152-177 | 404 for an unknown user, changing nothing; otherwise 200, with only that account's flag flipped |
| AdminController.Approved | server/controllers/adminController.js:210 | the product becomes active, and nothing else changes |
| AdminController.ApproveIdempotent | server/controllers/adminController.js:210 | approving twice equals approving once, and an active product is left as it is |
| AdminController.ApproveProduct | server/controllers/adminController.js:200-225 | 404 for an unknown product, changing nothing; otherwise 200, with only that product made active |
| AdminController.WithStatus | server/controllers/adminController.js:94-103 | any status is set and one history entry appended; tracking is replaced only when given; the delivery time is set only for "delivered"; nothing else changes |
| AdminController.UpdateOrderStatus | server/controllers/adminController.js:82-119 | 404 for an unknown order, changing nothing; otherwise 200, with only that order updated |
| AdminController.NoPaidOrdersNoRevenue | server/controllers/adminController.js:19-36 | with no completed payment the revenue is 0 |
| AdminController.RevenueOfConcat | server/controllers/adminController.js:19-22 | the revenue of two runs of orders is the sum of their revenues |
| AdminController.RevenueIgnoresUnpaid | server/controllers/adminController.js:19-22 | the total of an order without a completed payment does not affect revenue |
| AdminController.PendingProducts | server/controllers/adminController.js:181 | exactly the products that are not active |
| AdminController.TotalRevenue | server/controllers/adminController.js:19-22 | the total of the orders whose payment completed; its properties are `NoPaidOrdersNoRevenue`, `RevenueOfConcat` and `RevenueIgnoresUnpaid` |
| AdminController.ApproveLeavesPending | server/controllers/adminController.js:179-225 | approving a product removes it, and only it, from the pending list |

## Left out

- Rate limiting, CORS and the health endpoints. They are middleware and static payloads outside the core.
- AuthService.HashPassword: PBKDF2 with a random salt is replaced by a deterministic symbolic hash. Only the three facts above are modelled; constant-time comparison is not.
- Token signing, the secret and tampered or malformed tokens are left out. A token is modelled by its claims, so the invalid-signature path is not modelled.
- Schemas.EmailField: the address grammar and the normalisation are the `checkEmail` parameter, because the validation library is not part of this model. The model promises only that the normalised address is used throughout, not what it is.
- Database sessions, transactions and concurrent requests. Every request is modelled as atomic, so the race between the registration's email check and its insert is not modelled.
- The catch-all exception handlers (500 in the routes, 401 in `/refresh`) are modelled only where a specific fault leads to them: a vanished product, a missing quantity, or a refused cart save.
- AuthRoutes.DecodeJson: the text of the decoder's message for a malformed body is fixed, not the library's. Which non-string JSON type a field holds is not modelled, and neither are nested locations; only "not a string" is.
- `updated_at` refresh on update, and the `__repr__` of a user.
- CartStore.CartStore.AddItem: the store's `persist` (browser storage) and the client line's `_id` are left out. Merging is modelled on values. The source raises the quantity on the existing line object, which is shared with the previous state; that aliasing is not captured.
- `populate` calls, `selectedVariants`, line names and images, which only shape responses.
- An id that is not a valid ObjectId makes the database throw, giving 500. The model treats every id as well formed.
- The order, review, user and payment schemas, and every save validation except the cart's. The product schema's bounds are stated as `ProductModel.SchemaValid` and proved for new products and for rating averages; they are not checked on save.
- Review rating bounds are not checked on creation, because the review schema is not part of this model.
- ReviewController.GetProductReviews: requires `page >= 1` and `limit >= 1`. Query strings that parse to other values, and every `sort` other than the default newest-first, are not modelled. Newest first is reverse stored order, because reviews are only ever appended and `createdAt` is set on creation.
- CartController.ApplyCoupon: the schema's `trim` of the coupon code is not modelled.
- CategoryModel.Dasherize: where the dashes fall is stated as "never two in a row" and "letters and digits kept in order" (`DasherizeShape`, `DasherizeKeepsSlugChars`), not as one dash per run of other characters.
- AdminController.PendingProducts: the pending products are modelled as a set of ids. The newest-first order and the `count` of the response (adminController.js:181-188) are not modelled.
- CategoryModel.ToLower: `toLowerCase` is modelled on ASCII only; the category's uniqueness and length limits are not modelled.
- `getMyOrders`, `getAllOrders` and `getAllUsers` are not modelled. Of the dashboard figures only `totalRevenue` is modelled (as `AdminController.TotalRevenue`); the plain document counts and the recent-orders list are not.
- The order status set by `updateOrderStatus` is not checked against the order schema's allowed values, because that schema is not part of this model.

## Findings

| source | as written | input that shows it | evidently intended | confidence | as-written member | corrected member |
|---|---|---|---|---|---|---|
| server/controllers/cartController.js:95 | looks the line up with `cart.items.id(itemId)`, but cart lines are declared with `_id: false` (server/models/Cart.js:23), so no line has an `_id` and the lookup never succeeds | a cart holding one line for product `p` (quantity 1, stock 10), and a request to set quantity 2 for item `p`: the answer is 404 "Item not found in cart" | the line for the product takes the new quantity, matching lines by product id as `removeFromCart` does (cartController.js:139-141) | high, not executed | CartController.UpdateCartItemAsWritten | CartController.UpdateCartItem |
| auth/__init__.py:211 | hands the `UserResponse` object itself to `jsonify`, where every other response of the file calls `.model_dump()` first; Flask's JSON encoder does not serialise such objects and raises, and the catch-all at lines 213-217 answers 500 | any stored user asking `GET /me` with a valid access token: the answer is 500 `internal_error`, where tests/test_auth.py:254-262 expect 200 with the profile | 200 with the user's public view | high, not executed | AuthRoutes.GetCurrentUserAsWritten | AuthRoutes.GetCurrentUser |
