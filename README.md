# Restaurant storefront: cart, checkout, session and request checks

A Dafny model of the rule-bearing parts of a restaurant storefront built from
a React client and a Go REST backend:

- **Cart** (`Store`, from `src/App.tsx`): the `App` component keeps the cart
  as an ordered sequence of lines. Adding a selection bumps the first line with
  the same identity, or else appends a line. A quantity change that reaches
  zero or below drops the line. Remove filters out one position. Checkout
  posts the cart as an order, then clears it on success or keeps it on failure.
  `App` is a class whose methods reassign its `lines`, `selectedCategory` and
  `loading` fields. `AddToCart` runs the `findIndex` scan as a loop
  (`FindLine`) and is proved equal to the recursive reference `Merge`.
- **Cart modal** (`CartView`, from `src/components/Cart.tsx`): the displayed
  total, each row's unit price, and which clicks the − / + / Remove /
  Checkout controls can send.
- **Western page** (`Western`, from `src/components/WesternCategory.tsx`): the
  category filter, the cart badge, the modal price, and a `WesternPage` class
  whose handlers change the selected product, portion and options before they
  call `App.AddToCart`.
- **Session** (`Session`, from `src/context/AuthProvider.tsx`): an
  `AuthProvider` class over user, in-memory token, stored token and loading
  flag, with `Logout`, `InitAuth`, `Login` and `Register`. Network answers
  are parameters.
- **Authentication** (`Auth`, from `backend/auth.go`): Go's
  `strings.Split` on a blank, the bearer-header check, the admin gate,
  `checkPassword`, the token claims, and the register / login / me handlers
  as decision ladders. bcrypt, JWT signing and validation, and the user table
  are oracles passed in as parameters.
- **Handlers** (`Handlers`, from `backend/internal/handlers/handlers.go`):
  `strconv.Atoi` on path ids, plus the status ladders of the product,
  feedback and order handlers and the fields they overwrite.
- **Records** (`Types`, from `backend/internal/models/types.go` and
  `src/types.ts`), the HTTP reply shape (`Http`), and sums (`Common`).
  Every `reduce` in the client is the left fold `Common.Fold`, proved equal
  to the reference sum `Common.Sum`.
- **Across the wire** (`Storefront`): what the backend's checks make of the
  requests the client actually builds.

Money is exact integer cents. The two hard-coded options are Extra Spicy
(100) and Extra Cheese (300).

Four behaviours of the source shape the model:

- Line identity compares the customization list in order, as
  `JSON.stringify` does. It is not compared as a set.
- Checkout performs no principal check. It sends the fixed user id 1 and no
  Authorization header. Since `POST /orders` sits behind `authMiddleware`,
  the backend answers every checkout with 401 and the cart is never cleared
  (`Storefront.CheckoutAgainstBackend`).
- Going back to the home view does not clear the cart.
- `updateQuantity` on an index outside the cart throws a `TypeError`. The modal only ever sends a rendered row's own index, so
  `App.UpdateQuantity` requires an index inside the cart.

## Model

| member | source | states |
|---|---|---|
| `Store.FindLine` | src/App.tsx:25-31 | returns -1 exactly when no line has the selection's (product id, portion, customization list), else the first such index |
| `Store.Merge` | src/App.tsx:24-42 | reference definition of the cart update: walk the lines, add one unit to the first line with the selection's identity, or append a one-unit line; its properties are the lemmas below |
| `Store.MergeBumpsFirstMatch` | src/App.tsx:33-37 | when a line matches, adding gives the cart with that first matching line's quantity one higher and nothing else changed |
| `Store.MergeAppends` | src/App.tsx:39-41 | when no line matches, adding appends `{product, quantity 1, portion, customizations}` after the unchanged cart |
| `Store.MergeIncrementsMatchingLine` | src/App.tsx:25-37 | in a cart with distinct identities, any matching line is the one that gains exactly one unit; length and all other lines unchanged |
| `Store.MergeKeepsKeysDistinct` | src/App.tsx:24-42 | adding never creates two lines with the same identity |
| `Store.MergeKeepsPositive` | src/App.tsx:24-42 | adding keeps every quantity positive |
| `Store.AddTimesMakesOneLine` | src/App.tsx:24-42 | n ≥ 1 identical selections on an empty cart give exactly one line holding n units |
| `Store.OptionOrderSplitsLines` | src/App.tsx:29-30 | the same two options in the two orders give two separate one-unit lines |
| `Store.UndefinedMatchesEmpty` | src/App.tsx:29 | a stored line with no customization list matches a selection with the empty list |
| `Store.Updated` | src/App.tsx:45-53 | line `index` gets quantity q+change, or is removed when q+change ≤ 0; every other line keeps its value and relative order |
| `Store.UpdateToZeroRemoves` | src/App.tsx:48-51 | a change of minus the line's quantity removes exactly that line |
| `Store.UpdatedKeepsInvariants` | src/App.tsx:45-53 | a quantity change keeps identities distinct and quantities positive, whatever the delta |
| `Store.Without` | src/App.tsx:56-58 | removes exactly the line at `index`; an index outside the cart leaves it unchanged |
| `Store.WithoutKeepsInvariants` | src/App.tsx:56-58 | removal keeps identities distinct and quantities positive |
| `Store.CustomizationsCost` | src/App.tsx:66 | the sum of a line's option prices, 0 when the line has no list |
| `Store.LineCost` | src/App.tsx:67 | (product price + option prices) × quantity for one line |
| `Store.CheckoutTotal` | src/App.tsx:65-68 | the total is Σ (price + Σ option prices) × quantity over the lines, and 0 for an empty cart |
| `Store.MergeAddsUnitPrice` | src/App.tsx:22-42 | adding a selection raises the total by its unit price (price + option prices) when lines with that id carry the same price |
| `Store.UpdatedTotal` | src/App.tsx:45-53 | a quantity change moves the total by change × unit price, or by the whole line cost when the line is dropped |
| `Store.RemovedTotal` | src/App.tsx:56-58 | removing a line lowers the total by that line's cost; an out-of-range index changes nothing |
| `Store.OrderItems` | src/App.tsx:72-77 | one order item per line, in cart order: product id, quantity, portion, customizations or `[]` |
| `Store.CheckoutRequest` | src/App.tsx:70-88 | the order posted to /orders has user id 1, status `pending`, the cart's total, one item per line, and no Authorization header |
| `Store.CheckoutFailure` | src/App.tsx:90-93 | a failed response's message is its body text, or `Checkout failed` when the body is empty |
| `Store.App.constructor` | src/App.tsx:13-19 | the component starts with an empty cart, no category, not loading |
| `Store.App.AddToCart` | src/App.tsx:22-43 | the new cart is `Merge` of the old one and the selection; distinct identities and positive quantities are kept |
| `Store.App.UpdateQuantity` | src/App.tsx:45-54 | the new cart is `Updated` of the old one; the invariant is kept |
| `Store.App.RemoveFromCart` | src/App.tsx:56-58 | the new cart is the old one without position `index`; the invariant is kept |
| `Store.App.Checkout` | src/App.tsx:60-109 | an empty cart sends nothing and changes nothing; otherwise the request is `CheckoutRequest(cart)`; on ok the cart empties and the category resets; on failure the cart and category are unchanged and the alert carries the message; loading ends false |
| `Store.App.SelectCategory` | src/App.tsx:134-136 | the chosen category becomes the selected one |
| `Store.App.BackToHome` | src/App.tsx:138-141 | clears the category and the feedback view, and leaves the cart unchanged |
| `CartView.RowPrice` | src/components/Cart.tsx:42 | a row shows price + option prices for one unit; times the quantity it is the line's cost |
| `CartView.DisplayedTotal` | src/components/Cart.tsx:7-10 | the modal's own left fold of (price + option prices) × quantity from 0; tied to the checkout total by the next lemma |
| `CartView.DisplayedTotalIsCheckoutTotal` | src/components/Cart.tsx:7-10 | the modal's total equals the checkout total for every cart, and is 0 for an empty cart |
| `CartView.MinusEnabled` | src/components/Cart.tsx:50 | the − button is enabled exactly when the row's quantity is above 1 |
| `CartView.CheckoutEnabled` | src/components/Cart.tsx:77 | the Checkout button is enabled exactly when the cart has a line |
| `CartView.CanSend` | src/components/Cart.tsx:47-78 | the events a click can send: −1 from an enabled − button, +1 from any row, Remove with the row's own index, Checkout from the enabled button |
| `CartView.QuantityEventsKeepLines` | src/components/Cart.tsx:47-56 | the − button sends −1 only at quantity ≥ 2 and + sends +1, so a quantity click never removes a line and leaves it at ≥ 1 unit |
| `CartView.CheckoutEnabledIffNonEmpty` | src/components/Cart.tsx:75-78 | the Checkout button can be clicked exactly when the cart is non-empty |
| `Western.WesternProducts` | src/components/WesternCategory.tsx:41 | lists exactly the catalog's products whose category is `western` |
| `Western.WesternProductsConcat` | src/components/WesternCategory.tsx:41 | the filter keeps catalog order: filtering a concatenation concatenates the filtered parts |
| `Western.BadgeCount` | src/components/WesternCategory.tsx:57-59 | the badge is 0 on an empty cart and at least the number of lines when quantities are positive |
| `Western.BadgeAfterAdd` | src/components/WesternCategory.tsx:57-59 | every add raises the badge by exactly one |
| `Western.BadgeAfterUpdate` | src/components/WesternCategory.tsx:57-59 | a quantity change moves the badge by the change, or by the dropped line's quantity |
| `Western.ModalPrice` | src/components/WesternCategory.tsx:185-188 | the modal price is the product price plus the selected options' prices |
| `Western.ModalPriceIsRowPrice` | src/components/WesternCategory.tsx:185-188 | the modal price is the unit price the cart row shows for the line the modal adds |
| `Western.IsChecked` | src/components/WesternCategory.tsx:220-222 | a checkbox is checked exactly when some selected option carries its id |
| `Western.Unchecked` | src/components/WesternCategory.tsx:234-238 | unchecking leaves no option with that id, and every option with another id stays |
| `Western.UncheckedConcat` | src/components/WesternCategory.tsx:234-238 | the filter keeps the other options in their order: unchecking a concatenation unchecks each part |
| `Western.UncheckedAbsent` | src/components/WesternCategory.tsx:234-238 | unchecking an option that is not selected changes nothing |
| `Western.CheckThenUncheck` | src/components/WesternCategory.tsx:223-239 | checking and then unchecking an unselected option restores the previous selection |
| `Western.CheckOrderMatters` | src/components/WesternCategory.tsx:223-265 | checking spicy then cheese, or cheese then spicy, gives two different lists that land on two cart lines |
| `Western.WesternPage.constructor` | src/components/WesternCategory.tsx:34-39 | no product selected, portion `Medium`, no options, cart closed |
| `Western.WesternPage.ClickCard` | src/components/WesternCategory.tsx:74-77 | a card click selects the product and resets only the portion to `Medium` |
| `Western.WesternPage.Customize` | src/components/WesternCategory.tsx:110-115 | Customize selects the product, resets the portion to `Medium` and clears the options |
| `Western.WesternPage.QuickAdd` | src/components/WesternCategory.tsx:121-124 | the quick button adds the product with portion `Medium` and no options |
| `Western.WesternPage.SelectPortion` | src/components/WesternCategory.tsx:203 | the selector sets the portion |
| `Western.WesternPage.ToggleOption` | src/components/WesternCategory.tsx:223-265 | checking appends the option at the end, unchecking filters out its id; the checkbox then reads as the new state |
| `Western.WesternPage.AddFromModal` | src/components/WesternCategory.tsx:274-282 | adds the selected product with the current portion and options, then clears the product and options and keeps the portion |
| `Western.WesternPage.CloseModal` | src/components/WesternCategory.tsx:146-156 | closing the modal deselects the product |
| `Western.WesternPage.OpenCart` | src/components/WesternCategory.tsx:55 | the cart button opens the cart modal |
| `Western.WesternPage.CloseCart` | src/components/WesternCategory.tsx:138 | closing hides the cart modal |
| `Session.AuthFailure` | src/context/AuthProvider.tsx:53-56 | the thrown message is the body text, or the fallback when the body is empty |
| `Session.AuthProvider.constructor` | src/context/AuthProvider.tsx:8-10 | the user is null, the token is the stored token, loading is on |
| `Session.AuthProvider.Logout` | src/context/AuthProvider.tsx:12-16 | user, token and stored token all become null; token equals stored token |
| `Session.AuthProvider.InitAuth` | src/context/AuthProvider.tsx:19-41 | no (or empty) stored token: no request, nothing changes; ok: the user is set and the token equals the stored token; not ok or thrown: logged out; loading is off on every path |
| `Session.AuthProvider.Login` | src/context/AuthProvider.tsx:46-62 | a failed login reports body or `Login failed` and keeps the state; success sets token, stored token and user from the response |
| `Session.AuthProvider.Register` | src/context/AuthProvider.tsx:64-80 | same as login with `Registration failed` |
| `Session.AuthProvider.SignIn` | src/context/AuthProvider.tsx:53-61 | the body `login` and `register` share: failure reports the body or the given fallback and keeps the state; success sets token, stored token and user |
| `Auth.Split` | backend/auth.go:89 | splitting on a blank gives at least one piece and no piece holds a blank |
| `Auth.JoinSplit` | backend/auth.go:89 | joining the pieces with blanks gives the header back |
| `Auth.ParseAuthHeader` | backend/auth.go:83-93 | 401 `Authorization header required` exactly for the empty header; any other rejection is 401 `Invalid authorization header`; an accepted token has no blank |
| `Auth.BearerAcceptedIff` | backend/auth.go:89-93 | a header passes with token t exactly when it is `Bearer ` followed by t and t has no blank |
| `Auth.RejectsLowerCaseScheme` | backend/auth.go:90-92 | `bearer x` is rejected with 401 |
| `Auth.RejectsMissingToken` | backend/auth.go:90-92 | `Bearer` alone is rejected with 401 |
| `Auth.RejectsExtraPiece` | backend/auth.go:90-92 | `Bearer a b` is rejected with 401 |
| `Auth.AcceptsEmptyToken` | backend/auth.go:89-95 | `Bearer ` passes an empty token to validation |
| `Auth.AuthMiddleware` | backend/auth.go:81-104 | an empty header gives 401 `Authorization header required`; the request goes on iff the header is `Bearer t` with a valid t; a failed validation gives 401 `Invalid token` |
| `Auth.AdminMiddleware` | backend/auth.go:107-116 | passes iff claims are present with role `admin`, otherwise 403 |
| `Auth.CheckPassword` | backend/auth.go:36-45 | match gives (true, no error), mismatch gives (false, no error), any other failure gives (false, error) |
| `Auth.TokenClaims` | backend/auth.go:47-56 | the claims carry the user's id, email and role; the expiry is the first clock reading plus four hours and the issue time the second reading |
| `Auth.TokenLifetimeWindow` | backend/auth.go:53-54 | with readings in order, expiry minus issue is at most 14400 seconds: exactly 14400 when both reads fall in the same second, 14399 when they straddle one |
| `Auth.RegisterHandler` | backend/auth.go:119-175 | 400 on a bad body or an empty email/password/name; 409 iff the email exists; 201 only when every step succeeded, with role `admin` iff the user count read 0, the new id, and the password cleared |
| `Auth.LoginHandler` | backend/auth.go:178-219 | 400 on a bad body or empty fields; 401 for an unknown user or a mismatch; 500 on a compare error; 200 iff the password matched and signing worked, with the password cleared |
| `Auth.GetMeHandler` | backend/auth.go:222-238 | 401 without claims, 404 when the user is missing, else the user with the password cleared |
| `Types.UserJsonKeys` | backend/internal/models/types.go:102-108 | the password key is written exactly when the password is non-empty |
| `Types.WithoutPassword` | backend/internal/models/types.go:106 | a cleared user keeps id, email, role and name, and is written without a password key |
| `Types.CategoryIsValid` | backend/internal/models/types.go:30-32 | a category is valid exactly when it is `eastern` or `western` |
| `Types.CategoryIsValidRejects` | backend/internal/models/types.go:30-32 | every string other than `eastern` and `western` is invalid |
| `Handlers.Atoi` | backend/internal/handlers/handlers.go:45 | a parsed id lies in the 64-bit range; the empty string does not parse |
| `Handlers.AtoiShowInt` | backend/internal/handlers/handlers.go:45 | every in-range integer written in decimal parses back to itself |
| `Handlers.AtoiRejects` | backend/internal/handlers/handlers.go:45-49 | `abc`, `-`, `1.5` and `12 ` are not ids |
| `Handlers.GetProduct` | backend/internal/handlers/handlers.go:43-63 | 400 for a non-integer id, 404 for no rows, 500 for other errors, else the product looked up by the parsed id |
| `Handlers.CreateProduct` | backend/internal/handlers/handlers.go:110-130 | 201 iff the body decodes with non-empty name and category and the insert works; the reply carries the assigned id |
| `Handlers.CreateProductSkipsCategoryCheck` | backend/internal/handlers/handlers.go:117-120 | a product whose category fails `IsValid` is still created |
| `Handlers.UpdateProduct` | backend/internal/handlers/handlers.go:133-155 | the id is checked before the body; the updated product carries the path id whatever the body said |
| `Handlers.DeleteProduct` | backend/internal/handlers/handlers.go:158-172 | 400 for a non-integer id, 500 on failure, else 204 |
| `Handlers.SubmitFeedback` | backend/internal/handlers/handlers.go:66-95 | 400 unless name, email, comment, product name and product id are present, then 400 unless the rating is 1 to 5; 201 iff all hold and the save works |
| `Handlers.CreateOrder` | backend/internal/handlers/handlers.go:175-198 | 400 on a bad body even without claims; 401 without claims; on 201 the order's owner is the claims' user and its status `pending`, whatever the body said |
| `Handlers.GetUserOrders` | backend/internal/handlers/handlers.go:201-229 | 400 for a non-integer id, 401 without claims, 403 unless the caller is that user or an admin, else the fetched orders |
| `Handlers.CustomerReadsOnlyOwnOrders` | backend/internal/handlers/handlers.go:215-219 | a non-admin who gets orders asked for their own id |
| `Storefront.CheckoutRequestIsUnauthorized` | src/App.tsx:82-88 | the checkout request has no Authorization header, so the order route's middleware answers 401 `Authorization header required` |
| `Storefront.StartupHeaderReachesValidation` | src/context/AuthProvider.tsx:24-26 | the header string `Bearer <token>` passes the split check with that token exactly when the token has no blank |
| `Storefront.MisfiledProductIsHidden` | backend/internal/handlers/handlers.go:117-120 | a product created with category `Western` is accepted and never listed on the western page |
| `Storefront.CheckoutAgainstBackend` | src/App.tsx:60-109 | a checkout against the real order route keeps the cart and alerts with the 401 body |

## Left out

- I/O: `fetch`, `alert`, `console`, `localStorage` and the database are parameters or fields. SQL and `repository.go` are not part of this model. Router wiring in `backend/main.go` is not modelled either; it is only cited for the protected order route.
- Floating-point money and `toFixed(2)`: prices are exact integer cents.
- React scheduling: `setState` batching, the double-submit hazard, and the shallow copy in `addToCart`/`updateQuantity` that mutates the previous line object. The model uses value semantics.
- The eastern category page is not part of this model. It is not among the files modelled.
- `GetProducts`, `GetProductsByCategory`, `GetFeedback` and `GetDashboardStats` only pass a repository result through (500 or 200).
- `hashPassword` (bcrypt cost 14), `generateToken` signing and `validateToken` are oracles. Only the claims that are signed are modelled.
- Header whitespace: `fetch` and Go's `net/http` trim leading and trailing blanks from header values. That trimming is not modelled, so the header checks are stated on the header string as built.
- Clock: the two `time.Now()` readings in `generateToken` are parameters in whole seconds. Nothing forces the wall clock not to run backwards.
- JSON decoding is an input: `None` stands for a body that does not decode. `json.Encoder` output is reduced to the record written and, for `User`, its key set.
- Store.App.UpdateQuantity: requires an index inside the cart. The source throws a TypeError outside it, and the cart modal never sends such an index.
- Auth.RegisterHandler: the e-mail lookup's error is discarded as in the source, so a failed lookup reads as "no such user". The password hash is not checked against the password.
